/**
 * ModelProxy: a model that mirrors the entries of other models.
 *
 * Every model has a sync id `S` and maps keys `K` to items `V`. A proxy
 * stores the item that source model `s` holds under key `k` under the
 * composite key `(s, k)`. The class-level registries `Model.instances`
 * and `Model.proxies` are the two fields of a `Registry` object; a source
 * model is seen through its sync id and its current contents.
 */
module Proxy {

  /**
   * The table a proxy with sync id `self` and acceptance test `accept`
   * holds when it mirrors every model of `instances`.
   */
  function Mirror<S(==), K(==), V>(instances: map<S, map<K, V>>, self: S, accept: S -> bool): map<(S, K), V>
  {
    map s, k | s in instances && k in instances[s] && s != self && accept(s) :: (s, k) := instances[s][k]
  }

  /** `m` without the entries whose composite key starts with `source`. */
  function WithoutSource<S(==), K(==), V>(m: map<(S, K), V>, source: S): map<(S, K), V>
  {
    map p | p in m && p.0 != source :: m[p]
  }

  /** The entries of `m` whose keys are not in `ks`. */
  function Outside<X(==), Y>(m: map<X, Y>, ks: set<X>): map<X, Y>
  {
    map x | x in m && x !in ks :: m[x]
  }

  lemma OutsideAll<X, Y>(m: map<X, Y>, ks: set<X>)
    requires m.Keys <= ks
    ensures Outside(m, ks).Keys == {}
  {
  }

  lemma OutsideNext<X, Y>(m: map<X, Y>, ks: set<X>, x: X)
    requires x in ks && x in m
    ensures Outside(m, ks - {x}) == Outside(m, ks)[x := m[x]]
  {
  }

  lemma OutsideNone<X, Y>(m: map<X, Y>, ks: set<X>)
    requires ks == {}
    ensures Outside(m, ks) == m
  {
  }

  /** The base class's `accept_source`: every source is accepted. */
  function AcceptAll<S>(s: S): (r: bool)
    ensures r
  {
    true
  }

  /** `del self[key]` either removes the key or raises `KeyError`. */
  datatype Outcome = Done | KeyError

  /** The class-level registries shared by all models. */
  class Registry<S(==), K(==), V> {
    /** `Model.instances`: the contents of every registered model, by sync id. */
    var instances: map<S, map<K, V>>
    /** `Model.proxies`: every proxy, by sync id. */
    var proxies: map<S, ModelProxy<S, K, V>>

    constructor (instances: map<S, map<K, V>>)
      ensures this.instances == instances && proxies == map[]
    {
      this.instances := instances;
      proxies := map[];
    }
  }

  class ModelProxy<S(==), K(==), V> {
    const syncId: S
    /**
     * `accept_source`, seen as a test on the source's sync id. The base
     * class accepts every source (`AcceptAll`); subclasses narrow it.
     */
    const accept: S -> bool
    /** The proxy's own model: composite key to mirrored item. */
    var entries: map<(S, K), V>

    /**
     * Registers the proxy, still empty, in `Model.instances` (as every model
     * does when it is created) and in `Model.proxies`, then copies every
     * entry of every other accepted model of `Model.instances`.
     */
    constructor (syncId: S, accept: S -> bool, registry: Registry<S, K, V>)
      modifies registry
      ensures this.syncId == syncId && this.accept == accept
      ensures registry.instances == old(registry.instances)[syncId := map[]]
      ensures registry.proxies == old(registry.proxies)[syncId := this]
      ensures entries == Mirror(registry.instances, syncId, accept)
      ensures entries == Mirror(old(registry.instances), syncId, accept)
    {
      this.syncId := syncId;
      this.accept := accept;
      entries := map[];
      new;
      ghost var before := registry.instances;
      registry.instances := registry.instances[syncId := map[]];
      registry.proxies := registry.proxies[syncId := this];
      CopyAll(registry.instances);
      MirrorIgnored(before, syncId, accept, syncId, map[]);
    }

    /**
     * Copies every item of every model of `instances` other than the
     * proxy itself that `accept_source` lets through.
     */
    method CopyAll(instances: map<S, map<K, V>>)
      requires entries.Keys == {}
      modifies this
      ensures entries == Mirror(instances, syncId, accept)
    {
      var pending := instances.Keys;
      OutsideAll(instances, pending);
      MirrorEmpty(Outside(instances, pending), syncId, accept);
      while pending != {}
        invariant pending <= instances.Keys
        invariant entries == Mirror(Outside(instances, pending), syncId, accept)
        decreases pending
      {
        var s :| s in pending;
        if s != syncId && accept(s) {
          CopySource(s, instances[s], Outside(instances, pending));
        } else {
          MirrorIgnored(Outside(instances, pending), syncId, accept, s, instances[s]);
        }
        OutsideNext(instances, pending, s);
        pending := pending - {s};
      }
      OutsideNone(instances, pending);
    }

    /**
     * Copies every item of the accepted model `s` into the proxy, one
     * `source_item_set` per key; `seen` is what the proxy mirrors so far.
     */
    method CopySource(s: S, model: map<K, V>, ghost seen: map<S, map<K, V>>)
      requires s != syncId && accept(s) && s !in seen
      requires entries == Mirror(seen, syncId, accept)
      modifies this
      ensures entries == Mirror(seen[s := model], syncId, accept)
    {
      var keys := model.Keys;
      OutsideAll(model, keys);
      MirrorNewSource(seen, syncId, accept, s, Outside(model, keys));
      while keys != {}
        invariant keys <= model.Keys
        invariant entries == Mirror(seen[s := Outside(model, keys)], syncId, accept)
        decreases keys
      {
        var k :| k in keys;
        SourceItemSet(s, k, model[k]);
        MirrorItemSet(seen, syncId, accept, s, Outside(model, keys), k, model[k]);
        OutsideNext(model, keys, k);
        keys := keys - {k};
      }
      OutsideNone(model, keys);
    }

    /** Mirrors `source[key] = value` when the source is accepted. */
    method SourceItemSet(source: S, key: K, value: V)
      modifies this
      ensures entries == if accept(source) then old(entries)[(source, key) := value] else old(entries)
    {
      if accept(source) {
        entries := entries[(source, key) := value];
      }
    }

    /**
     * Mirrors `del source[key]` when the source is accepted; raises
     * `KeyError` and changes nothing when the composite key is absent.
     */
    method SourceItemDeleted(source: S, key: K) returns (r: Outcome)
      modifies this
      ensures r == KeyError <==> accept(source) && (source, key) !in old(entries)
      ensures entries == if r == Done && accept(source) then old(entries) - {(source, key)} else old(entries)
    {
      r := Done;
      if accept(source) {
        if (source, key) in entries {
          entries := entries - {(source, key)};
        } else {
          r := KeyError;
        }
      }
    }

    /**
     * Mirrors clearing `source`: walks a snapshot of the composite keys and
     * deletes each one that belongs to the source.
     */
    method SourceCleared(source: S)
      modifies this
      ensures entries == if accept(source) then WithoutSource(old(entries), source) else old(entries)
    {
      if accept(source) {
        ghost var before := entries;
        var pending := entries.Keys;
        while pending != {}
          invariant pending <= before.Keys
          invariant forall p :: p in entries <==> p in before && (p in pending || p.0 != source)
          invariant forall p :: p in entries ==> entries[p] == before[p]
          decreases pending
        {
          var p :| p in pending;
          if p.0 == source {
            // every snapshot key of the source is still present, so `del` never fails
            assert p in entries;
            entries := entries - {p};
          }
          pending := pending - {p};
        }
        assert entries == WithoutSource(before, source);
      }
    }
  }

  /** A proxy never mirrors itself. */
  lemma MirrorNeverSelf<S, K, V>(instances: map<S, map<K, V>>, self: S, accept: S -> bool, k: K)
    ensures (self, k) !in Mirror(instances, self, accept)
  {
  }

  /** Which composite keys the constructor creates, and the items they hold. */
  lemma MirrorEntries<S, K, V>(instances: map<S, map<K, V>>, self: S, accept: S -> bool, s: S, k: K)
    ensures (s, k) in Mirror(instances, self, accept) <==>
      s in instances && s != self && accept(s) && k in instances[s]
    ensures (s, k) in Mirror(instances, self, accept) ==> Mirror(instances, self, accept)[(s, k)] == instances[s][k]
  {
  }

  /** A proxy with the base `accept_source` mirrors every key of every other model. */
  lemma MirrorAcceptAll<S, K, V>(instances: map<S, map<K, V>>, self: S, s: S, k: K)
    ensures (s, k) in Mirror(instances, self, AcceptAll) <==> s in instances && s != self && k in instances[s]
  {
    MirrorEntries(instances, self, AcceptAll, s, k);
  }

  /** With no model registered, there is nothing to mirror. */
  lemma MirrorEmpty<S, K, V>(instances: map<S, map<K, V>>, self: S, accept: S -> bool)
    requires instances.Keys == {}
    ensures Mirror(instances, self, accept).Keys == {}
  {
    forall p | p in Mirror(instances, self, accept)
      ensures false
    {
      MirrorEntries(instances, self, accept, p.0, p.1);
    }
  }

  /** Registering a new, empty source adds nothing to the mirror. */
  lemma MirrorNewSource<S, K, V>(instances: map<S, map<K, V>>, self: S, accept: S -> bool, s: S, empty: map<K, V>)
    requires s !in instances && empty.Keys == {}
    ensures Mirror(instances[s := empty], self, accept) == Mirror(instances, self, accept)
  {
    var after := instances[s := empty];
    var lhs, rhs := Mirror(after, self, accept), Mirror(instances, self, accept);
    forall p | p in lhs || p in rhs
      ensures p in lhs && p in rhs && lhs[p] == rhs[p]
    {
      MirrorEntries(after, self, accept, p.0, p.1);
      MirrorEntries(instances, self, accept, p.0, p.1);
    }
  }

  /**
   * Setting an item in an accepted source `s` whose contents are `model`,
   * and mirroring it with `SourceItemSet`, keeps the proxy equal to the
   * mirror of the registry.
   */
  lemma MirrorItemSet<S, K, V>(instances: map<S, map<K, V>>, self: S, accept: S -> bool,
                               s: S, model: map<K, V>, k: K, v: V)
    requires s != self && accept(s)
    ensures Mirror(instances[s := model[k := v]], self, accept)
         == Mirror(instances[s := model], self, accept)[(s, k) := v]
  {
    var after, before := instances[s := model[k := v]], instances[s := model];
    var lhs, rhs := Mirror(after, self, accept), Mirror(before, self, accept)[(s, k) := v];
    forall p | p in lhs || p in rhs
      ensures p in lhs && p in rhs && lhs[p] == rhs[p]
    {
      MirrorEntries(after, self, accept, p.0, p.1);
      MirrorEntries(before, self, accept, p.0, p.1);
    }
  }

  /**
   * Deleting a present item from an accepted source and mirroring it with
   * `SourceItemDeleted` keeps the proxy equal to the mirror of the registry.
   */
  lemma MirrorItemDeleted<S, K, V>(instances: map<S, map<K, V>>, self: S, accept: S -> bool, s: S, k: K)
    requires s in instances && s != self && accept(s) && k in instances[s]
    ensures (s, k) in Mirror(instances, self, accept)
    ensures Mirror(instances[s := instances[s] - {k}], self, accept)
         == Mirror(instances, self, accept) - {(s, k)}
  {
    var after := instances[s := instances[s] - {k}];
    var lhs, rhs := Mirror(after, self, accept), Mirror(instances, self, accept) - {(s, k)};
    MirrorEntries(instances, self, accept, s, k);
    forall p | p in lhs || p in rhs
      ensures p in lhs && p in rhs && lhs[p] == rhs[p]
    {
      MirrorEntries(after, self, accept, p.0, p.1);
      MirrorEntries(instances, self, accept, p.0, p.1);
    }
  }

  /**
   * Clearing a source and mirroring it with `SourceCleared` keeps the proxy
   * equal to the mirror of the registry.
   */
  lemma MirrorCleared<S, K, V>(instances: map<S, map<K, V>>, self: S, accept: S -> bool, s: S)
    requires s in instances && s != self
    ensures Mirror(instances[s := map[]], self, accept) == WithoutSource(Mirror(instances, self, accept), s)
  {
    var after := instances[s := map[]];
    var lhs, rhs := Mirror(after, self, accept), WithoutSource(Mirror(instances, self, accept), s);
    forall p | p in lhs || p in rhs
      ensures p in lhs && p in rhs && lhs[p] == rhs[p]
    {
      MirrorEntries(after, self, accept, p.0, p.1);
      MirrorEntries(instances, self, accept, p.0, p.1);
    }
  }

  /** Changes to a source the proxy does not mirror leave the mirror as it is. */
  lemma MirrorIgnored<S, K, V>(instances: map<S, map<K, V>>, self: S, accept: S -> bool, s: S, model: map<K, V>)
    requires s == self || !accept(s)
    ensures Mirror(instances[s := model], self, accept) == Mirror(instances, self, accept)
  {
    var after := instances[s := model];
    var lhs, rhs := Mirror(after, self, accept), Mirror(instances, self, accept);
    forall p | p in lhs || p in rhs
      ensures p in lhs && p in rhs && lhs[p] == rhs[p]
    {
      MirrorEntries(after, self, accept, p.0, p.1);
      MirrorEntries(instances, self, accept, p.0, p.1);
    }
  }

  /** After `SourceCleared`, no key of the source is left and every other entry is kept. */
  lemma WithoutSourceSpec<S, K, V>(m: map<(S, K), V>, source: S)
    ensures forall k :: (source, k) !in WithoutSource(m, source)
    ensures forall p :: p in m && p.0 != source ==> p in WithoutSource(m, source) && WithoutSource(m, source)[p] == m[p]
    ensures WithoutSource(m, source).Keys <= m.Keys
  {
  }

  /** Clearing the same source twice is the same as clearing it once. */
  lemma WithoutSourceIdempotent<S, K, V>(m: map<(S, K), V>, source: S)
    ensures WithoutSource(WithoutSource(m, source), source) == WithoutSource(m, source)
  {
  }
}
