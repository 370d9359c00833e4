# Mirrored models and client bookkeeping of a Matrix chat backend

This project is a Dafny model of two parts of the Python backend of a
Matrix chat client:

- **`ModelProxy`.** This model mirrors the items of every other registered
  model. Model `s` holds an item under key `k`; the proxy stores that item
  under the composite key `(s, k)`. The proxy copies every accepted source
  when it is created. After that it follows each set, delete and clear of a
  source. `proxy.dfy`, module `Proxy`, models it as the class
  `ModelProxy`. The class-level registries `Model.instances` and
  `Model.proxies` are the fields of a `Registry` object.
- **`Backend`.** This is the registry of logged-in `MatrixClient`s and the
  `Account` model kept in step with it. It changes on login, resume and
  logout. It also builds the flat main-pane list: each account in sorted
  order, each followed by its joined rooms in sorted order.
  `backend.dfy`, module `Backend`, models it as the class `Backend`.
  The specification function `MainpaneData` says what the list is.
  `order.dfy`, module `Order`, models Python's `sorted` as `Sorted`. It
  models it for the distinct items of a model under a strict total order.
  The in-step invariant stores every item under its own id, so the values
  of a model are distinct.

Each mutating method is proved against a specification:

- `Mirror` says what a proxy holds for a given registry.
- `WithoutSource` says what clearing a source leaves behind.
- `MainpaneData` is the flat list.
- `Valid()` is the invariant that keeps clients and accounts in step.

Lemmas relate each registry change to the matching proxy callback. They
also state where the list puts each account and room.

Network results are parameters. `login` is what the server answered to
`client.login`: the user id, or a `MatrixError`.

## Model

| member | source | states |
|---|---|---|
| Proxy.Mirror | src/backend/models/proxy.py:17-23 | specification function: the proxy's table for a registry, with items of accepted models other than the proxy under `(sync_id, key)`; `MirrorEntries` characterises it |
| Proxy.WithoutSource | src/backend/models/proxy.py:42-44 | specification function: the proxy's table without the keys of one source; `WithoutSourceSpec` characterises it |
| Proxy.Registry.constructor | src/backend/models/proxy.py:15-17 | the class-level registries `Model.instances` and `Model.proxies` start from the given model contents and with no proxy |
| Proxy.ModelProxy.constructor | src/backend/models/proxy.py:13-23 | registers the proxy, still empty, under its sync id in `Model.instances` and in `Model.proxies`; the proxy then holds exactly the mirror of every registered model other than itself that it accepts, which is also the mirror of the registry as it was before |
| Proxy.ModelProxy.CopyAll | src/backend/models/proxy.py:17-23 | starting from an empty proxy, the loop over all registered models ends with the proxy equal to their mirror |
| Proxy.ModelProxy.CopySource | src/backend/models/proxy.py:19-23 | setting every item of one accepted model, key by key, adds exactly that model's mirror to what is already copied |
| Proxy.ModelProxy.SourceItemSet | src/backend/models/proxy.py:30-32 | an accepted source's item is stored under `(source, key)`, overwriting any earlier one; nothing changes for a source that is not accepted |
| Proxy.ModelProxy.SourceItemDeleted | src/backend/models/proxy.py:35-37 | for an accepted source, removes `(source, key)` when present; reports `KeyError` exactly when the source is accepted and the key is absent, and then changes nothing |
| Proxy.ModelProxy.SourceCleared | src/backend/models/proxy.py:40-44 | for an accepted source, walks a snapshot of the keys and afterwards holds exactly the old entries of the other sources, with their items unchanged |
| Proxy.AcceptAll | src/backend/models/proxy.py:26-27 | the base class's `accept_source`: every source is accepted |
| Proxy.MirrorAcceptAll | src/backend/models/proxy.py:17-27 | with the base `accept_source`, the proxy mirrors every key of every registered model other than itself |
| Proxy.MirrorNeverSelf | src/backend/models/proxy.py:18 | a proxy never holds an entry of its own sync id |
| Proxy.MirrorEntries | src/backend/models/proxy.py:17-23 | `(s, k)` is mirrored if and only if model `s` is registered, is not the proxy, is accepted and holds `k`; the mirrored item is the model's item |
| Proxy.MirrorEmpty | src/backend/models/proxy.py:17 | with no registered model the mirror is empty |
| Proxy.MirrorNewSource | src/backend/models/proxy.py:13-15 | registering a new empty model does not change the mirror |
| Proxy.MirrorItemSet | src/backend/models/proxy.py:30-32 | setting `k := v` in an accepted model changes the mirror exactly as `source_item_set` changes the proxy |
| Proxy.MirrorItemDeleted | src/backend/models/proxy.py:35-37 | deleting a present key of an accepted model removes exactly `(s, k)` from the mirror, and that key was mirrored, so `del` does not fail |
| Proxy.MirrorCleared | src/backend/models/proxy.py:40-44 | clearing a model changes the mirror exactly as `source_cleared` changes the proxy |
| Proxy.MirrorIgnored | src/backend/models/proxy.py:26-27 | any change to the proxy itself or to a model it does not accept leaves the mirror as it is |
| Proxy.WithoutSourceSpec | src/backend/models/proxy.py:42-44 | after clearing, no key of the source is left; every entry of another source is kept with its item; no key is added |
| Proxy.WithoutSourceIdempotent | src/backend/models/proxy.py:40-44 | clearing the same source twice leaves what clearing it once leaves |
| Order.SortedSpec | src/backend/backend.py:249 | `sorted` of a set holds exactly the set's members, in strictly increasing order |
| Order.SortedUnique | src/backend/backend.py:249 | any strictly sorted sequence holding exactly the set's members is the sorted list, so the order is determined by the comparison alone |
| Order.Sorted | src/backend/backend.py:249 | the sorted list is as long as the set |
| Backend.SortedRooms | src/backend/backend.py:257 | `sorted` of the values of an account's room model, the list the inner loop walks; `Order.SortedSpec` gives its members and order |
| Backend.RoomsOf | src/backend/backend.py:257 | the items of an account's room model; an account with no room model has none |
| Backend.RoomsOfCount | src/backend/backend.py:257 | when rooms are stored under their own room ids, an account has one distinct room item per key of its room model |
| Backend.AccountsCount | src/backend/backend.py:249 | when accounts are stored under their own user ids, there is one distinct account item per key of the `Account` model |
| Backend.AccountEntry | src/backend/backend.py:250-255 | an account's dictionary has type `Account`, the user id as both `id` and `user_id`, and the account as its data |
| Backend.RoomEntry | src/backend/backend.py:258-263 | a room's dictionary has type `Room`, the owner's user id as `user_id`, the room as its data, and an `id` that splits back into the user id, a `/` and the room id |
| Backend.RoomEntryIds | src/backend/backend.py:260 | within one account, two rooms have the same entry id exactly when they have the same room id, and no room entry has the account entry's id |
| Backend.MainpaneData | src/backend/backend.py:244-265 | specification function: the blocks of the sorted accounts, each an account entry followed by its sorted room entries; `MainpaneBlock`, `MainpaneRoom`, `MainpaneLength` and `EntryOwner` characterise it |
| Backend.NewAccount | src/backend/backend.py:85 | the new item carries the user id it is created for |
| Backend.Backend.Valid | src/backend/backend.py:46 | the in-step invariant: `clients` and the `Account` model have the same user ids, each account sits under its own user id and each room under its own room id; every mutating method keeps it |
| Backend.Backend.constructor | src/backend/backend.py:46 | a new backend has no client, no account and no room, and is in step: clients and accounts have the same user ids, and each account and room item is stored under its own id |
| Backend.Backend.LoginClient | src/backend/backend.py:66-86 | on success, registers a client with the given user, homeserver and device id and a fresh `Account`, both under the user id the server answered, and returns that user id; on a `MatrixError`, registers nothing and passes the error on; the in-step invariant is kept |
| Backend.Backend.ResumeClient | src/backend/backend.py:89-104 | registers a client with the known user id, homeserver and device id, and a fresh `Account`, under that user id; the in-step invariant is kept |
| Backend.Backend.LogoutClient | src/backend/backend.py:125-133 | removes the client and the account of the user id; an unknown user id changes neither map; the in-step invariant is kept |
| Backend.LoginLogout | src/backend/backend.py:84-85 | logging in a user id with no client and then logging it out leaves clients, accounts and rooms as they were |
| Backend.Backend.GetFlatMainpaneData | src/backend/backend.py:244-265 | the loop over sorted accounts and, for each one, its sorted rooms returns exactly `MainpaneData`; in step, it returns one entry per account key and one per room key of each account |
| Backend.MainpaneAccountsInOrder | src/backend/backend.py:249-255 | of any two `Account` entries of the list, both carry an account of the model, and the earlier one's account comes first in sort order |
| Backend.MainpaneBlock | src/backend/backend.py:249-263 | the i-th sorted account's entry sits at its offset; the next account comes after that account's rooms |
| Backend.MainpaneRoom | src/backend/backend.py:257-263 | the j-th sorted room of the i-th account directly follows that account's entry, at offset + 1 + j, with id `user_id + "/" + room_id` and the account's user id |
| Backend.MainpaneLength | src/backend/backend.py:247-263 | when items are stored under their own ids, the list has one entry per key of the `Account` model, plus one per key of each account's room model |
| Backend.EntryOwner | src/backend/backend.py:249-263 | every entry of the list belongs to exactly one account's block: it is that account's entry at the block's offset, or the entry of the account's (position - offset - 1)-th room in sorted order |

## Left out

- The `async`/`await` machinery, the locks, and the polling of `get_client` and `get_any_client` (backend.py:136-172). Concurrency is outside the model; each operation runs to completion.
- `Proxy.ModelProxy.constructor`: `Model`'s own constructor is not part of this model. The proxy is taken to register itself in `Model.instances` under its sync id, as the self-test at proxy.py:18 implies. The registry entry is empty and does not track the proxy's own contents, whose keys are composite. This changes nothing this proxy holds. A proxy created later sees it as an empty model and mirrors none of its entries, which the source would.
- The network calls: `client.login`, `client.resume`, `client.logout`, `client.close`. A login result is a parameter. Resuming and logging out have no result the maps depend on. The password and the token are left out because only those calls use them.
- `Backend.Backend.ResumeClient`: the model registers the client and account and stops. The session's `resume` call comes afterwards in the source and may fail; the maps stay updated either way, exactly as the model leaves them.
- `Backend.Backend.LogoutClient`: `saved_accounts.delete` (backend.py:133) is file I/O and is not modelled.
- `load_saved_accounts`, settings loading, the media cache, the profile cache, `__repr__` and the rest of `Backend`. They are not part of this model.
- `ModelStore` creating an empty model on first access. `RoomsOf` returns the empty set for an account with no room model, which has the same effect and no side effect.
- The notifications a model sends to the UI and to its proxies when it changes. The lemmas `MirrorItemSet`, `MirrorItemDeleted` and `MirrorCleared` state what those callbacks achieve.
- `Proxy.ModelProxy.SourceItemSet`: `accept_source` is modelled as a test on the source's sync id. The source's contents are not inspected.
- A proxy mirroring another proxy's entries is not modelled. The live loop at proxy.py:17-23 does this when a later proxy accepts an earlier one. Those keys would be composite twice over, `(earlier_sync_id, (s, k))`, and the registry holds only plain `key -> item` contents.
- `Backend.Backend.GetFlatMainpaneData`: `sorted` on items is modelled for a strict total order on accounts and on rooms. How Python places items that compare equal is not modelled. Under the in-step invariant the items of one model are distinct, so the order is determined by the comparison alone.
- `Backend.MainpaneData`: Python sorts `dict.values()`, which has one element per key. The model sorts the set of values. The two differ only when two keys of one model hold equal items. The in-step invariant `Valid()` stores every account under its own user id and every room under its own room id, so that cannot happen. Outside that invariant, the model would list equal items once.
- `Backend.Backend.Valid`: the rooms clause is an assumption about how room models are filled. That code is outside the model.
- The room models `models[Room, user_id]` are filled by the sync code, which is not part of this model. No modelled method changes `rooms`, and a new `Backend` starts with none. `GetFlatMainpaneData` is specified for whatever rooms the backend holds.
- The default arguments are not modelled. These are `device_id=None` and `homeserver="https://matrix.org"` of `login_client` (backend.py:69-70), and the `homeserver` default of `resume_client` (backend.py:93). The model's callers always pass every argument.
- Item serialisation: `data` carries the account or room itself, not its dictionary form.
- Python truthiness of a `MatrixClient`: every registered client is taken to be truthy, so `logout_client` drops an account exactly when its client was registered.
