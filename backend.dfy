/**
 * The in-memory bookkeeping of `Backend`: the registry of logged-in
 * clients, the `Account` model kept in step with it, and the flat list of
 * accounts and their rooms handed to the main pane.
 *
 * Network calls are parameters: `login` is what logging in answered.
 */
module Backend {
  import opened Order

  datatype Option<T> = None | Some(value: T)

  /** A logged-in account; items also carry profile data, kept opaque here. */
  datatype Account = Account(userId: string, displayName: string)

  /** A joined room of one account. */
  datatype Room = Room(roomId: string, displayName: string)

  /** The identity a `MatrixClient` is created with. */
  datatype MatrixClient = MatrixClient(user: string, homeserver: string, deviceId: Option<string>)

  /** An error the server reported. */
  datatype MatrixError = MatrixError(httpStatus: int, message: string)

  datatype Result<T> = Ok(value: T) | Err(error: MatrixError)

  /** `Account(user_id)`: a fresh item with no profile data yet. */
  function NewAccount(userId: string): (a: Account)
    ensures a.userId == userId
  {
    Account(userId, "")
  }

  /** The serialized item an entry carries; its format is opaque here. */
  datatype ItemData = AccountData(account: Account) | RoomData(room: Room)

  /** One dictionary of the main-pane list: type, id, user_id and data. */
  datatype Entry = Entry(kind: string, id: string, userId: string, data: ItemData)

  /** The entry of an account: its own user id is both its id and its owner. */
  function AccountEntry(a: Account): (e: Entry)
    ensures e.kind == "Account" && e.id == a.userId && e.userId == a.userId
    ensures e.data == AccountData(a)
  {
    Entry("Account", a.userId, a.userId, AccountData(a))
  }

  /**
   * The entry of a room of account `userId`: its id splits back into the
   * owner's user id and the room id at the first character after the
   * user id.
   */
  function RoomEntry(userId: string, r: Room): (e: Entry)
    ensures e.kind == "Room" && e.userId == userId && e.data == RoomData(r)
    ensures |e.id| == |userId| + 1 + |r.roomId|
    ensures e.id[..|userId|] == userId && e.id[|userId|] == '/' && e.id[|userId| + 1..] == r.roomId
  {
    Entry("Room", userId + "/" + r.roomId, userId, RoomData(r))
  }

  /**
   * Within one account, different room ids give different entry ids, and
   * no room entry shares its id with the account's own entry.
   */
  lemma RoomEntryIds(a: Account, r1: Room, r2: Room)
    ensures RoomEntry(a.userId, r1).id != AccountEntry(a).id
    ensures RoomEntry(a.userId, r1).id == RoomEntry(a.userId, r2).id <==> r1.roomId == r2.roomId
  {
    var e1, e2 := RoomEntry(a.userId, r1), RoomEntry(a.userId, r2);
    if e1.id == e2.id {
      assert r1.roomId == e1.id[|a.userId| + 1..] == e2.id[|a.userId| + 1..] == r2.roomId;
    }
  }

  /** The values of `models[Room, user_id]`; a model never filled is empty. */
  function RoomsOf(rooms: map<string, map<string, Room>>, userId: string): set<Room>
  {
    if userId in rooms then rooms[userId].Values else {}
  }

  /** Every account item is stored under its own user id. */
  ghost predicate AccountsKeyed(accounts: map<string, Account>)
  {
    forall u :: u in accounts ==> accounts[u].userId == u
  }

  /** Every room item is stored under its own room id. */
  ghost predicate RoomsKeyed(rooms: map<string, map<string, Room>>)
  {
    forall u, rid :: u in rooms && rid in rooms[u] ==> rooms[u][rid].roomId == rid
  }

  /** The number of keys of `models[Room, user_id]`. */
  function RoomCount(rooms: map<string, map<string, Room>>, userId: string): nat
  {
    if userId in rooms then |rooms[userId]| else 0
  }

  /** A map whose items name their own keys has one distinct item per key. */
  lemma {:induction false} KeyedValues<K, V>(m: map<K, V>, key: V -> K)
    requires forall k :: k in m ==> key(m[k]) == k
    ensures |m.Values| == |m|
    decreases |m|
  {
    if |m| > 0 {
      var k :| k in m;
      var rest := m - {k};
      KeyedValues(rest, key);
      assert m.Values == rest.Values + {m[k]} by {
        forall v | v in m.Values
          ensures v in rest.Values || v == m[k]
        {
          var k' :| k' in m && m[k'] == v;
          if k' != k {
            assert k' in rest;
          }
        }
        assert m[k] in m.Values;
      }
      assert m[k] !in rest.Values;
      assert m.Keys == rest.Keys + {k};
    }
  }

  /** With rooms stored under their own ids, the room set of an account is as large as its model. */
  lemma RoomsOfCount(rooms: map<string, map<string, Room>>, userId: string)
    requires RoomsKeyed(rooms)
    ensures |RoomsOf(rooms, userId)| == RoomCount(rooms, userId)
  {
    if userId in rooms {
      KeyedValues(rooms[userId], (r: Room) => r.roomId);
    }
  }

  /** With accounts stored under their own user ids, there is one account item per user id. */
  lemma AccountsCount(accounts: map<string, Account>)
    requires AccountsKeyed(accounts)
    ensures |accounts.Values| == |accounts|
  {
    KeyedValues(accounts, (a: Account) => a.userId);
  }

  /** `sorted(models[Room, user_id].values())`. */
  function SortedRooms(rooms: map<string, map<string, Room>>, userId: string, roomLt: (Room, Room) -> bool): seq<Room>
    requires StrictTotal(roomLt)
  {
    Sorted(RoomsOf(rooms, userId), roomLt)
  }

  /** The list of rooms to show under each account, by user id. */
  type RoomLists = map<string, seq<Room>>

  function RoomList(lists: RoomLists, userId: string): seq<Room>
  {
    if userId in lists then lists[userId] else []
  }

  /** The sorted rooms of every account. */
  function SortedRoomLists(rooms: map<string, map<string, Room>>, roomLt: (Room, Room) -> bool): RoomLists
    requires StrictTotal(roomLt)
  {
    map u | u in rooms :: SortedRooms(rooms, u, roomLt)
  }

  /** The list shown under account `userId` is the sorted list of its rooms. */
  lemma SortedRoomListsAt(rooms: map<string, map<string, Room>>, roomLt: (Room, Room) -> bool, userId: string)
    requires StrictTotal(roomLt)
    ensures RoomList(SortedRoomLists(rooms, roomLt), userId) == SortedRooms(rooms, userId, roomLt)
  {
    assert Sorted({}, roomLt) == [];
  }

  /** The entries of the first `j` rooms of `rs`, for account `userId`. */
  function RoomEntries(userId: string, rs: seq<Room>, j: nat): seq<Entry>
    requires j <= |rs|
  {
    if j == 0 then [] else RoomEntries(userId, rs, j - 1) + [RoomEntry(userId, rs[j - 1])]
  }

  /** An account entry followed by the entries of its rooms. */
  function Block(a: Account, lists: RoomLists): seq<Entry>
  {
    [AccountEntry(a)] + RoomEntries(a.userId, RoomList(lists, a.userId), |RoomList(lists, a.userId)|)
  }

  /** The blocks of the first `n` accounts of `accs`, one after the other. */
  function Blocks(accs: seq<Account>, lists: RoomLists, n: nat): seq<Entry>
    requires n <= |accs|
  {
    if n == 0 then [] else Blocks(accs, lists, n - 1) + Block(accs[n - 1], lists)
  }

  /** What `get_flat_mainpane_data` returns. */
  function MainpaneData(accounts: map<string, Account>, rooms: map<string, map<string, Room>>,
                        accountLt: (Account, Account) -> bool, roomLt: (Room, Room) -> bool): seq<Entry>
    requires StrictTotal(accountLt) && StrictTotal(roomLt)
  {
    Blocks(Sorted(accounts.Values, accountLt), SortedRoomLists(rooms, roomLt), |accounts.Values|)
  }

  /** Where the block of `accs[i]` starts. */
  function Offset(accs: seq<Account>, lists: RoomLists, i: nat): nat
    requires i <= |accs|
  {
    if i == 0 then 0 else Offset(accs, lists, i - 1) + 1 + |RoomList(lists, accs[i - 1].userId)|
  }

  /** The number of keys in the room models of the first `n` accounts of `accs`. */
  function TotalRooms(accs: seq<Account>, rooms: map<string, map<string, Room>>, n: nat): nat
    requires n <= |accs|
  {
    if n == 0 then 0 else TotalRooms(accs, rooms, n - 1) + RoomCount(rooms, accs[n - 1].userId)
  }

  /** There is one entry per room. */
  lemma {:induction false} RoomEntriesLength(userId: string, rs: seq<Room>, j: nat)
    requires j <= |rs|
    ensures |RoomEntries(userId, rs, j)| == j
    decreases j
  {
    if j > 0 {
      RoomEntriesLength(userId, rs, j - 1);
    }
  }

  /** Entry `m` is that of room `m`. */
  lemma {:induction false} RoomEntryAt(userId: string, rs: seq<Room>, j: nat, m: nat)
    requires m < j <= |rs|
    ensures |RoomEntries(userId, rs, j)| == j
    ensures RoomEntries(userId, rs, j)[m] == RoomEntry(userId, rs[m])
    decreases j
  {
    RoomEntriesLength(userId, rs, j - 1);
    if m < j - 1 {
      RoomEntryAt(userId, rs, j - 1, m);
    }
  }

  lemma AppendAssoc<T>(a: seq<T>, b: seq<T>, c: seq<T>)
    ensures a + b + c == a + (b + c)
  {
  }

  /** A block is one entry longer than the room list of its account. */
  lemma BlockLength(a: Account, lists: RoomLists)
    ensures |Block(a, lists)| == 1 + |RoomList(lists, a.userId)|
  {
    RoomEntriesLength(a.userId, RoomList(lists, a.userId), |RoomList(lists, a.userId)|);
  }

  /** The first `n` blocks fill exactly `Offset(n)` entries. */
  lemma {:induction false} BlocksLength(accs: seq<Account>, lists: RoomLists, n: nat)
    requires n <= |accs|
    ensures |Blocks(accs, lists, n)| == Offset(accs, lists, n)
    decreases n
  {
    if n > 0 {
      BlocksLength(accs, lists, n - 1);
      BlockLength(accs[n - 1], lists);
    }
  }

  /** Account entries stand at increasing positions. */
  lemma {:induction false} OffsetMonotone(accs: seq<Account>, lists: RoomLists, i: nat, j: nat)
    requires i < j <= |accs|
    ensures Offset(accs, lists, i) < Offset(accs, lists, j)
    decreases j - i
  {
    if i + 1 < j {
      OffsetMonotone(accs, lists, i + 1, j);
    }
  }

  /** Entry `k` of the block of `accs[i]` stands at `Offset(i) + k` once `n > i` blocks are laid out. */
  lemma {:induction false} BlocksAt(accs: seq<Account>, lists: RoomLists, n: nat, i: nat, k: nat)
    requires i < n <= |accs|
    requires k < |Block(accs[i], lists)|
    ensures Offset(accs, lists, i) + k < |Blocks(accs, lists, n)|
    ensures Blocks(accs, lists, n)[Offset(accs, lists, i) + k] == Block(accs[i], lists)[k]
    decreases n
  {
    BlocksLength(accs, lists, n - 1);
    if n - 1 > i {
      BlocksAt(accs, lists, n - 1, i, k);
    }
  }

  /**
   * The block of `accs[i]` starts with its account entry at `Offset(i)`
   * and ends by `Offset(i + 1)`, within the whole list.
   */
  lemma BlockHead(accs: seq<Account>, lists: RoomLists, i: nat)
    requires i < |accs|
    ensures Offset(accs, lists, i + 1) <= |Blocks(accs, lists, |accs|)|
    ensures Blocks(accs, lists, |accs|)[Offset(accs, lists, i)] == AccountEntry(accs[i])
  {
    BlocksLength(accs, lists, |accs|);
    if i + 1 < |accs| {
      OffsetMonotone(accs, lists, i + 1, |accs|);
    }
    BlockLength(accs[i], lists);
    BlocksAt(accs, lists, |accs|, i, 0);
  }

  /** Room `j` of account `accs[i]` stands `j + 1` entries after the account's entry. */
  lemma BlockRoom(accs: seq<Account>, lists: RoomLists, i: nat, j: nat)
    requires i < |accs|
    requires j < |RoomList(lists, accs[i].userId)|
    ensures Offset(accs, lists, i) + 1 + j < |Blocks(accs, lists, |accs|)|
    ensures Blocks(accs, lists, |accs|)[Offset(accs, lists, i) + 1 + j]
         == RoomEntry(accs[i].userId, RoomList(lists, accs[i].userId)[j])
  {
    var rs := RoomList(lists, accs[i].userId);
    assert Block(accs[i], lists)[1 + j] == RoomEntry(accs[i].userId, rs[j]) by {
      RoomEntryAt(accs[i].userId, rs, |rs|, j);
    }
    BlocksAt(accs, lists, |accs|, i, 1 + j);
  }

  /** The block holding position `n`, searched from account `i` on. */
  lemma {:induction false} BlockFrom(accs: seq<Account>, lists: RoomLists, n: nat, i: nat) returns (k: nat)
    requires i <= |accs|
    requires Offset(accs, lists, i) <= n < Offset(accs, lists, |accs|)
    ensures i <= k < |accs|
    ensures Offset(accs, lists, k) <= n < Offset(accs, lists, k + 1)
    decreases |accs| - i
  {
    if n < Offset(accs, lists, i + 1) {
      k := i;
    } else {
      k := BlockFrom(accs, lists, n, i + 1);
    }
  }

  /**
   * Every position of the flat list lies in the block of some account `i`:
   * it is that account's entry or one of its room entries.
   */
  lemma EntryOwner(accs: seq<Account>, lists: RoomLists, n: nat) returns (i: nat)
    requires n < |Blocks(accs, lists, |accs|)|
    ensures i < |accs|
    ensures Offset(accs, lists, i) <= n < Offset(accs, lists, i + 1)
    ensures n == Offset(accs, lists, i) ==> Blocks(accs, lists, |accs|)[n] == AccountEntry(accs[i])
    ensures n != Offset(accs, lists, i) ==>
      n - Offset(accs, lists, i) - 1 < |RoomList(lists, accs[i].userId)| &&
      Blocks(accs, lists, |accs|)[n]
        == RoomEntry(accs[i].userId, RoomList(lists, accs[i].userId)[n - Offset(accs, lists, i) - 1])
  {
    BlocksLength(accs, lists, |accs|);
    i := BlockFrom(accs, lists, n, 0);
    BlockHead(accs, lists, i);
    if n != Offset(accs, lists, i) {
      BlockRoom(accs, lists, i, n - Offset(accs, lists, i) - 1);
    }
  }

  /**
   * Every account entry of the main-pane list is an account of the model,
   * and account entries appear in sorted order.
   */
  lemma MainpaneAccountsInOrder(accounts: map<string, Account>, rooms: map<string, map<string, Room>>,
                                accountLt: (Account, Account) -> bool, roomLt: (Room, Room) -> bool, p: nat, q: nat)
    requires StrictTotal(accountLt) && StrictTotal(roomLt)
    requires p < q < |MainpaneData(accounts, rooms, accountLt, roomLt)|
    requires MainpaneData(accounts, rooms, accountLt, roomLt)[p].kind == "Account"
    requires MainpaneData(accounts, rooms, accountLt, roomLt)[q].kind == "Account"
    ensures MainpaneData(accounts, rooms, accountLt, roomLt)[p].data.AccountData?
    ensures MainpaneData(accounts, rooms, accountLt, roomLt)[p].data.account in accounts.Values
    ensures MainpaneData(accounts, rooms, accountLt, roomLt)[q].data.AccountData?
    ensures MainpaneData(accounts, rooms, accountLt, roomLt)[q].data.account in accounts.Values
    ensures accountLt(MainpaneData(accounts, rooms, accountLt, roomLt)[p].data.account,
                      MainpaneData(accounts, rooms, accountLt, roomLt)[q].data.account)
  {
    var accs, lists := Sorted(accounts.Values, accountLt), SortedRoomLists(rooms, roomLt);
    assert MainpaneData(accounts, rooms, accountLt, roomLt) == Blocks(accs, lists, |accs|);
    var ip := EntryOwner(accs, lists, p);
    var iq := EntryOwner(accs, lists, q);
    if iq <= ip {
      if iq < ip {
        OffsetMonotone(accs, lists, iq + 1, ip);
      }
      assert false;
    }
    SortedSpec(accounts.Values, accountLt);
    assert accs[ip] in accs;
    assert accs[iq] in accs;
  }

  /** Where the entry of account `i` of the sorted accounts stands in the main-pane list. */
  function MainpaneOffset(accounts: map<string, Account>, rooms: map<string, map<string, Room>>,
                          accountLt: (Account, Account) -> bool, roomLt: (Room, Room) -> bool, i: nat): nat
    requires StrictTotal(accountLt) && StrictTotal(roomLt)
    requires i <= |accounts.Values|
  {
    Offset(Sorted(accounts.Values, accountLt), SortedRoomLists(rooms, roomLt), i)
  }

  /**
   * Account `i` of the sorted accounts heads its block in the main-pane
   * list, and its block is one entry longer than its room model.
   */
  lemma MainpaneBlock(accounts: map<string, Account>, rooms: map<string, map<string, Room>>,
                      accountLt: (Account, Account) -> bool, roomLt: (Room, Room) -> bool, i: nat)
    requires StrictTotal(accountLt) && StrictTotal(roomLt)
    requires i < |accounts.Values|
    ensures Sorted(accounts.Values, accountLt)[i] in accounts.Values
    ensures MainpaneOffset(accounts, rooms, accountLt, roomLt, i + 1)
         == MainpaneOffset(accounts, rooms, accountLt, roomLt, i) + 1
            + |RoomsOf(rooms, Sorted(accounts.Values, accountLt)[i].userId)|
         <= |MainpaneData(accounts, rooms, accountLt, roomLt)|
    ensures MainpaneData(accounts, rooms, accountLt, roomLt)[MainpaneOffset(accounts, rooms, accountLt, roomLt, i)]
         == AccountEntry(Sorted(accounts.Values, accountLt)[i])
  {
    var accs, lists := Sorted(accounts.Values, accountLt), SortedRoomLists(rooms, roomLt);
    assert accs[i] in accounts.Values by {
      SortedSpec(accounts.Values, accountLt);
      assert accs[i] in accs;
    }
    assert |RoomList(lists, accs[i].userId)| == |RoomsOf(rooms, accs[i].userId)| by {
      SortedRoomListsAt(rooms, roomLt, accs[i].userId);
    }
    BlockHead(accs, lists, i);
    assert MainpaneData(accounts, rooms, accountLt, roomLt) == Blocks(accs, lists, |accs|);
  }

  /**
   * Room `j` of the sorted rooms of account `i` stands `j + 1` entries after
   * the account's own entry, with the composite id `user_id/room_id`.
   */
  lemma MainpaneRoom(accounts: map<string, Account>, rooms: map<string, map<string, Room>>,
                     accountLt: (Account, Account) -> bool, roomLt: (Room, Room) -> bool, i: nat, j: nat)
    requires StrictTotal(accountLt) && StrictTotal(roomLt)
    requires i < |accounts.Values|
    requires j < |SortedRooms(rooms, Sorted(accounts.Values, accountLt)[i].userId, roomLt)|
    ensures MainpaneOffset(accounts, rooms, accountLt, roomLt, i) + 1 + j < |MainpaneData(accounts, rooms, accountLt, roomLt)|
    ensures MainpaneData(accounts, rooms, accountLt, roomLt)[MainpaneOffset(accounts, rooms, accountLt, roomLt, i) + 1 + j]
         == RoomEntry(Sorted(accounts.Values, accountLt)[i].userId,
                      SortedRooms(rooms, Sorted(accounts.Values, accountLt)[i].userId, roomLt)[j])
  {
    var accs, lists := Sorted(accounts.Values, accountLt), SortedRoomLists(rooms, roomLt);
    var u := accs[i].userId;
    assert RoomList(lists, u) == SortedRooms(rooms, u, roomLt) by {
      SortedRoomListsAt(rooms, roomLt, u);
    }
    BlockRoom(accs, lists, i, j);
    assert MainpaneData(accounts, rooms, accountLt, roomLt) == Blocks(accs, lists, |accs|);
    assert MainpaneOffset(accounts, rooms, accountLt, roomLt, i) == Offset(accs, lists, i);
  }

  /**
   * The main-pane list has one entry per key of the `Account` model and
   * one per key of the room model of each account.
   */
  lemma MainpaneLength(accounts: map<string, Account>, rooms: map<string, map<string, Room>>,
                       accountLt: (Account, Account) -> bool, roomLt: (Room, Room) -> bool)
    requires StrictTotal(accountLt) && StrictTotal(roomLt)
    requires AccountsKeyed(accounts) && RoomsKeyed(rooms)
    ensures |MainpaneData(accounts, rooms, accountLt, roomLt)|
         == |accounts| + TotalRooms(Sorted(accounts.Values, accountLt), rooms, |accounts.Values|)
  {
    var accs, lists := Sorted(accounts.Values, accountLt), SortedRoomLists(rooms, roomLt);
    BlocksLength(accs, lists, |accs|);
    OffsetCounts(accs, rooms, roomLt, |accs|);
    AccountsCount(accounts);
  }

  /** The first `n` blocks hold `n` account entries and the rooms of those accounts. */
  lemma {:induction false} OffsetCounts(accs: seq<Account>, rooms: map<string, map<string, Room>>,
                                        roomLt: (Room, Room) -> bool, n: nat)
    requires StrictTotal(roomLt) && RoomsKeyed(rooms)
    requires n <= |accs|
    ensures Offset(accs, SortedRoomLists(rooms, roomLt), n) == n + TotalRooms(accs, rooms, n)
    decreases n
  {
    if n > 0 {
      OffsetCounts(accs, rooms, roomLt, n - 1);
      SortedRoomListsAt(rooms, roomLt, accs[n - 1].userId);
      RoomsOfCount(rooms, accs[n - 1].userId);
    }
  }

  class Backend {
    /** `clients`: the registered `MatrixClient` of each user id. */
    var clients: map<string, MatrixClient>
    /** `models[Account]`: the account item of each user id. */
    var accounts: map<string, Account>
    /** `models[Room, user_id]`: the rooms of each account, by room id. */
    var rooms: map<string, map<string, Room>>
    /** The orderings `sorted` uses on account and room items. */
    const accountLt: (Account, Account) -> bool
    const roomLt: (Room, Room) -> bool

    /**
     * The registry and the `Account` model are in step: the same user ids,
     * each account stored under its own user id, and each room under its
     * own room id.
     */
    ghost predicate Valid()
      reads this
    {
      && StrictTotal(accountLt) && StrictTotal(roomLt)
      && clients.Keys == accounts.Keys
      && AccountsKeyed(accounts) && RoomsKeyed(rooms)
    }

    constructor (accountLt: (Account, Account) -> bool, roomLt: (Room, Room) -> bool)
      requires StrictTotal(accountLt) && StrictTotal(roomLt)
      ensures Valid()
      ensures this.accountLt == accountLt && this.roomLt == roomLt
      ensures clients == map[] && accounts == map[] && rooms == map[]
    {
      this.accountLt := accountLt;
      this.roomLt := roomLt;
      clients, accounts, rooms := map[], map[], map[];
    }

    /**
     * Creates a client for `user` and registers it under the user id the
     * server answered; when logging in failed, registers nothing and passes
     * the error on.
     */
    method LoginClient(user: string, deviceId: Option<string>, homeserver: string, login: Result<string>)
      returns (r: Result<string>)
      requires Valid()
      modifies this
      ensures Valid()
      ensures r == login
      ensures login.Ok? ==> clients == old(clients)[login.value := MatrixClient(user, homeserver, deviceId)]
      ensures login.Ok? ==> accounts == old(accounts)[login.value := NewAccount(login.value)]
      ensures login.Err? ==> clients == old(clients) && accounts == old(accounts)
      ensures rooms == old(rooms)
    {
      var client := MatrixClient(user, homeserver, deviceId);
      if login.Err? {
        return login;
      }
      var userId := login.value;
      clients := clients[userId := client];
      accounts := accounts[userId := NewAccount(userId)];
      return Ok(userId);
    }

    /** Registers a client for known account details, before resuming its session. */
    method ResumeClient(userId: string, deviceId: string, homeserver: string)
      requires Valid()
      modifies this
      ensures Valid()
      ensures clients == old(clients)[userId := MatrixClient(userId, homeserver, Some(deviceId))]
      ensures accounts == old(accounts)[userId := NewAccount(userId)]
      ensures rooms == old(rooms)
    {
      var client := MatrixClient(userId, homeserver, Some(deviceId));
      clients := clients[userId := client];
      accounts := accounts[userId := NewAccount(userId)];
    }

    /** Unregisters the client of `userId` and its account, if it has one. */
    method LogoutClient(userId: string)
      requires Valid()
      modifies this
      ensures Valid()
      ensures userId !in clients && userId !in accounts
      ensures clients == old(clients) - {userId}
      ensures accounts == old(accounts) - {userId}
      ensures old(userId !in clients) ==> accounts == old(accounts)
      ensures rooms == old(rooms)
    {
      var registered := userId in clients;
      var client := if registered then Some(clients[userId]) else None;
      clients := clients - {userId};
      if client.Some? {
        accounts := accounts - {userId};
      }
    }

    /**
     * Each account in sorted order, each followed by its rooms in sorted
     * order, as one flat list.
     */
    method GetFlatMainpaneData() returns (data: seq<Entry>)
      requires StrictTotal(accountLt) && StrictTotal(roomLt)
      ensures data == MainpaneData(accounts, rooms, accountLt, roomLt)
      ensures Valid() ==> |data| == |accounts| + TotalRooms(Sorted(accounts.Values, accountLt), rooms, |accounts.Values|)
    {
      data := [];
      var accs := Sorted(accounts.Values, accountLt);
      ghost var lists := SortedRoomLists(rooms, roomLt);
      for i := 0 to |accs|
        invariant data == Blocks(accs, lists, i)
      {
        var account := accs[i];
        data := data + [AccountEntry(account)];
        ghost var head := data;
        var rs := SortedRooms(rooms, account.userId, roomLt);
        SortedRoomListsAt(rooms, roomLt, account.userId);
        for j := 0 to |rs|
          invariant data == head + RoomEntries(account.userId, rs, j)
        {
          assert RoomEntries(account.userId, rs, j + 1)
              == RoomEntries(account.userId, rs, j) + [RoomEntry(account.userId, rs[j])];
          AppendAssoc(head, RoomEntries(account.userId, rs, j), [RoomEntry(account.userId, rs[j])]);
          data := data + [RoomEntry(account.userId, rs[j])];
        }
        assert Blocks(accs, lists, i + 1) == Blocks(accs, lists, i) + Block(account, lists);
        assert Block(account, lists) == [AccountEntry(account)] + RoomEntries(account.userId, rs, |rs|);
        AppendAssoc(Blocks(accs, lists, i), [AccountEntry(account)], RoomEntries(account.userId, rs, |rs|));
      }
      if Valid() {
        MainpaneLength(accounts, rooms, accountLt, roomLt);
      }
    }
  }

  /** Logging a new user in and out again leaves the registry as it was. */
  method LoginLogout(b: Backend, user: string, homeserver: string, userId: string)
    requires b.Valid() && userId !in b.clients
    modifies b
    ensures b.clients == old(b.clients) && b.accounts == old(b.accounts) && b.rooms == old(b.rooms)
  {
    var r := b.LoginClient(user, None, homeserver, Ok(userId));
    b.LogoutClient(userId);
  }
}
