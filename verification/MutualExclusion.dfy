/** Mutual exclusion of the lock service, and exactly which repairs it takes. */
module MutualExclusion {
  import opened PaxosTypes
  import opened Handlers
  import opened LockService
  import opened LockLog

  /** No client was granted a path EXCLUSIVE while another one was granted it. */
  ghost predicate Exclusive(w: World) {
    forall g, h :: g in w.grants && h in w.grants && g.path == h.path && g.client != h.client ==> g.mode != EXCLUSIVE
  }

  /** What clients were granted is what the server knows: its lock map and its register. */
  ghost predicate Faithful(w: World) {
    && (forall g :: g in w.grants ==>
          w.server.Holds(g.path, g.client) && w.server.Locked(g.path) && g.mode == w.server.db[g.path])
    && forall h :: h in w.server.holders ==>
         w.server.Locked(h.0) && Grant(h.0, h.1, w.server.db[h.0]) in w.grants
  }

  /** Every locked path has a holder. */
  ghost predicate NoneAbandoned(w: World) {
    forall path :: w.server.Locked(path) ==> w.server.AnyHolder(path)
  }

  /** Nobody holds a lock without a session. */
  ghost predicate SessionsLive(w: World) {
    forall g :: g in w.grants ==> g.client in w.server.leases
  }

  ghost predicate Guarded(w: World) {
    Sound(w.server) && Faithful(w) && Exclusive(w)
  }

  /** A path has exactly one EXCLUSIVE holder and no other, or only SHARED holders, or none, and its register says
      which. */
  ghost predicate Consistent(w: World) {
    Guarded(w) && NoneAbandoned(w) && SessionsLive(w)
  }

  // ---- With `checkHolder` ----

  lemma AcquireGuards(fix: LockRepairs, w: World, call: Call)
    requires Guarded(w) && call.Acquire? && Plain(call)
    ensures Guarded(Serve(fix, w, call).0)
  {
    var s, path := w.server, call.path;
    PutWrites(NextSlot(s), path, call.mode);
    var w' := Serve(fix, w, call).0;
    var s' := w'.server;
    if w' != World(s', w.grants) {
      assert s'.holders == s.holders + {(path, call.client)};
      assert w'.grants == w.grants + {Grant(path, call.client, call.mode)};
      assert s'.db == s.db || (!s.Locked(path) && s'.db == s.db[path := call.mode]);
    }
  }

  lemma AcquireAbandonsNone(fix: LockRepairs, w: World, call: Call)
    requires Sound(w.server) && NoneAbandoned(w) && call.Acquire? && Plain(call)
    ensures NoneAbandoned(Serve(fix, w, call).0)
  {
    var s, path := w.server, call.path;
    AcquireWrites(s, path, call.client, call.mode);
    PutWrites(NextSlot(s), path, call.mode);
    var s' := Serve(fix, w, call).0.server;
    forall p | s'.Locked(p)
      ensures s'.AnyHolder(p)
    {
      if s'.db != s.db && p == path {
        assert (path, call.client) in s'.holders;
      } else {
        var h :| h in s.holders && h.0 == p;
        assert h in s'.holders;
      }
    }
  }

  /** The state and the grants once `client` gave up `path`. */
  function GiveUp(fix: LockRepairs, w: World, path: string, client: string): World {
    World(WriteFree(fix, RemoveHolder(w.server, path, client), path),
          set g | g in w.grants && !(g.path == path && g.client == client))
  }

  lemma GivingUpWrites(fix: LockRepairs, w: World, path: string, client: string)
    requires Sound(w.server) && fix.checkHolder && w.server.Locked(path)
    ensures var s' := GiveUp(fix, w, path, client).server;
      && Sound(s') && s'.leases == w.server.leases
      && s'.holders == w.server.holders - {(path, client)}
      && (s'.AnyHolder(path) || fix.freshSlot || s'.db == w.server.db || s'.db == w.server.db[path := FREE])
      && (s'.AnyHolder(path) ==> s'.db == w.server.db)
      && (!s'.AnyHolder(path) && fix.freshSlot ==> s'.db == w.server.db[path := FREE])
  {
    var s := RemoveHolder(w.server, path, client);
    WriteFreeFrees(fix, s, path);
    PutWrites(NextSlot(s), path, FREE);
    PutWrites(s, path, FREE);
  }

  lemma GivingUpGuards(fix: LockRepairs, w: World, path: string, client: string)
    requires Guarded(w) && fix.checkHolder && w.server.Locked(path)
    ensures Guarded(GiveUp(fix, w, path, client))
  {
    GivingUpWrites(fix, w, path, client);
    hide WriteFree, Sound;
  }

  lemma GivingUpAbandonsNone(fix: LockRepairs, w: World, path: string, client: string)
    requires Sound(w.server) && NoneAbandoned(w) && fix.checkHolder && fix.freshSlot && w.server.Locked(path)
    ensures NoneAbandoned(GiveUp(fix, w, path, client))
  {
    GivingUpWrites(fix, w, path, client);
    hide WriteFree, Sound;
    var s' := GiveUp(fix, w, path, client).server;
    forall p | s'.Locked(p)
      ensures s'.AnyHolder(p)
    {
      if p != path {
        var h :| h in w.server.holders && h.0 == p;
        assert h in s'.holders;
      }
    }
  }

  /** `w'` is `w` after its server gave up the locks of `client` on `keys`. */
  ghost predicate Leaves(fix: LockRepairs, w: World, w': World, gone: iset<(string, string)>) {
    && Guarded(w')
    && (fix.freshSlot && NoneAbandoned(w) ==> NoneAbandoned(w'))
    && w'.server.leases == w.server.leases
    && forall g :: g in w'.grants <==> g in w.grants && (g.path, g.client) !in gone
  }

  lemma GivingUp(fix: LockRepairs, w: World, path: string, client: string)
    requires Guarded(w) && fix.checkHolder && w.server.Locked(path)
    ensures Leaves(fix, w, GiveUp(fix, w, path, client), iset{(path, client)})
  {
    GivingUpGuards(fix, w, path, client);
    GivingUpWrites(fix, w, path, client);
    if fix.freshSlot && NoneAbandoned(w) {
      GivingUpAbandonsNone(fix, w, path, client);
    }
    hide WriteFree, Sound, Faithful, Exclusive, NoneAbandoned;
  }

  lemma EvictKeyGuards(fix: LockRepairs, w: World, client: string, key: string) returns (w': World)
    requires Guarded(w) && fix.checkHolder
    ensures w'.server == EvictKey(fix, w.server, client, key)
    ensures Leaves(fix, w, w', iset{(key, client)})
  {
    if w.server.Locked(key) {
      GivingUp(fix, w, key, client);
      w' := GiveUp(fix, w, key, client);
    } else {
      w' := w;
      assert RemoveHolder(w.server, key, client) == w.server;
    }
  }

  function PairsOf(client: string, keys: seq<string>): iset<(string, string)> {
    iset key | key in keys :: (key, client)
  }

  lemma {:induction false} EvictionGuards(fix: LockRepairs, w: World, client: string, keys: seq<string>)
    returns (w': World)
    requires Guarded(w) && fix.checkHolder
    ensures w'.server == ReleaseLocksForClient(fix, w.server, client, keys)
    ensures Leaves(fix, w, w', PairsOf(client, keys))
  {
    hide Guarded, NoneAbandoned, EvictKey;
    if keys == [] {
      w' := w;
    } else {
      var last := |keys| - 1;
      var w1 := EvictionGuards(fix, w, client, keys[..last]);
      w' := EvictKeyGuards(fix, w1, client, keys[last]);
      assert keys == keys[..last] + [keys[last]];
    }
  }

  function AllPairs(evictions: seq<Eviction>): iset<(string, string)> {
    iset e, key | e in evictions && key in e.keys :: (key, e.client)
  }

  lemma {:induction false} ExpiryGuards(fix: LockRepairs, w: World, evictions: seq<Eviction>) returns (w': World)
    requires Guarded(w) && fix.checkHolder
    ensures w'.server == ReleaseAll(fix, w.server, evictions)
    ensures Leaves(fix, w, w', AllPairs(evictions))
  {
    hide Guarded, NoneAbandoned, ReleaseLocksForClient;
    if evictions == [] {
      w' := w;
    } else {
      var last := |evictions| - 1;
      var w1 := ExpiryGuards(fix, w, evictions[..last]);
      w' := EvictionGuards(fix, w1, evictions[last].client, evictions[last].keys);
      assert evictions == evictions[..last] + [evictions[last]];
    }
  }

  lemma CallGuards(fix: LockRepairs, w: World, call: Call)
    requires Guarded(w) && SessionsLive(w) && fix.checkHolder && Possible(w, call)
    ensures Guarded(Serve(fix, w, call).0) && SessionsLive(Serve(fix, w, call).0)
    ensures fix.freshSlot && NoneAbandoned(w) ==> NoneAbandoned(Serve(fix, w, call).0)
  {
    match call
    case Acquire(_, _, _) =>
      AcquireGuards(fix, w, call);
      if NoneAbandoned(w) {
        AcquireAbandonsNone(fix, w, call);
      }
    case Release(path, client) => ReleaseGuards(fix, w, path, client);
    case Expire(now, evictions) => ExpireGuards(fix, w, now, evictions);
    case _ =>
  }

  lemma ReleaseGuards(fix: LockRepairs, w: World, path: string, client: string)
    requires Guarded(w) && SessionsLive(w) && fix.checkHolder
    ensures var w' := Serve(fix, w, Release(path, client)).0;
      Guarded(w') && SessionsLive(w') && (fix.freshSlot && NoneAbandoned(w) ==> NoneAbandoned(w'))
  {
    var w' := Serve(fix, w, Release(path, client)).0;
    if w.server.Locked(path) && w.server.Holds(path, client) && !w.server.waiting {
      GivingUp(fix, w, path, client);
      assert w' == GiveUp(fix, w, path, client);
    } else {
      assert w' == w;
    }
  }

  lemma ExpireGuards(fix: LockRepairs, w: World, now: int, evictions: seq<Eviction>)
    requires Guarded(w) && SessionsLive(w) && fix.checkHolder && EvictionsOf(w.server, now, evictions)
    ensures var w' := Serve(fix, w, Expire(now, evictions)).0;
      Guarded(w') && SessionsLive(w') && (fix.freshSlot && NoneAbandoned(w) ==> NoneAbandoned(w'))
  {
    var before := w.(server := DropExpired(w.server, now));
    var w1 := ExpiryGuards(fix, before, evictions);
    var w' := Serve(fix, w, Expire(now, evictions)).0;
    forall g
      ensures g in w1.grants <==> g in w'.grants
    {
      if g in w.grants {
        assert w.server.Holds(g.path, g.client);
      }
    }
    assert w1.grants == w'.grants;
  }

  // ---- Over runs ----

  ghost predicate Reaches(fix: LockRepairs, w: World) {
    exists worlds, calls :: ServesFromStart(fix, worlds, calls) && worlds[|worlds| - 1] == w
  }

  lemma {:induction false} RunGuards(fix: LockRepairs, worlds: seq<World>, calls: seq<Call>, k: nat)
    requires ServesFromStart(fix, worlds, calls) && fix.checkHolder && k < |worlds|
    ensures Guarded(worlds[k]) && SessionsLive(worlds[k])
    ensures fix.freshSlot ==> NoneAbandoned(worlds[k])
  {
    if k == 0 {
    } else {
      RunGuards(fix, worlds, calls, k - 1);
      assert Possible(worlds[k - 1], calls[k - 1]);
      CallGuards(fix, worlds[k - 1], calls[k - 1]);
    }
  }

  lemma Begin(fix: LockRepairs)
    ensures Reaches(fix, NEW_WORLD)
  {
    assert ServesFromStart(fix, [NEW_WORLD], []);
  }

  lemma Then(fix: LockRepairs, w: World, call: Call) returns (w': World)
    requires Reaches(fix, w) && Possible(w, call)
    ensures Reaches(fix, w') && w' == Serve(fix, w, call).0
  {
    w' := Serve(fix, w, call).0;
    var worlds, calls :| ServesFromStart(fix, worlds, calls) && worlds[|worlds| - 1] == w;
    var worlds', calls' := worlds + [w'], calls + [call];
    hide Serve, Possible;
    forall k | 0 <= k < |calls'|
      ensures Possible(worlds'[k], calls'[k]) && worlds'[k + 1] == Serve(fix, worlds'[k], calls'[k]).0
    {
      if k < |calls| {
        assert calls'[k] == calls[k];
      }
    }
    assert ServesFromStart(fix, worlds', calls') && worlds'[|worlds'| - 1] == w';
  }

  /** `a` holds the path EXCLUSIVE, and the slot of a refused acquire of `b` is still undecided. */
  lemma HeldByA(fix: LockRepairs) returns (w: World)
    ensures Reaches(fix, w) && w.grants == {Grant("p", "a", EXCLUSIVE)} && Sound(w.server) && w.server.slotNumber == 2
    ensures "b" in w.server.leases && !w.server.waiting && "p" in w.server.db && w.server.db["p"] == EXCLUSIVE
    ensures w.server.decided == map[1 := "p" + "#" + EXCLUSIVE]
  {
    Begin(fix);
    w := Then(fix, NEW_WORLD, Renew("a", 0));
    w := Then(fix, w, Renew("b", 0));
    PutWrites(NextSlot(w.server), "p", EXCLUSIVE);
    w := Then(fix, w, Acquire("p", "a", EXCLUSIVE));
    w := Then(fix, w, Acquire("p", "b", EXCLUSIVE));
  }

  /** A client takes a lock that another one holds: its release, which it had no right to, frees the path. */
  lemma AnyoneCanFree(fix: LockRepairs) returns (w: World)
    requires !fix.checkHolder
    ensures Reaches(fix, w) && !Exclusive(w)
  {
    w := HeldByA(fix);
    PutWrites(NextSlot(w.server), "p", FREE);
    PutWrites(w.server, "p", FREE);
    w := Then(fix, w, Release("p", "b"));
    assert Grant("p", "a", EXCLUSIVE) in w.grants;
    PutWrites(NextSlot(w.server), "p", EXCLUSIVE);
    w := Then(fix, w, Acquire("p", "b", EXCLUSIVE));
    assert Grant("p", "b", EXCLUSIVE) in w.grants;
  }

  /** The release of a lock that was just acquired is dropped: its slot is the one the acquire decided. */
  lemma ReleaseIsDropped(fix: LockRepairs) returns (w: World)
    requires !fix.freshSlot
    ensures Reaches(fix, w) && !NoneAbandoned(w)
  {
    Begin(fix);
    w := Then(fix, NEW_WORLD, Renew("a", 0));
    PutWrites(NextSlot(w.server), "p", EXCLUSIVE);
    w := Then(fix, w, Acquire("p", "a", EXCLUSIVE));
    assert ("p", "a") in w.server.holders && w.server.holders == {("p", "a")};
    PutWrites(w.server, "p", FREE);
    w := Then(fix, w, Release("p", "a"));
    assert w.server.Locked("p");
  }

  /** Mutual exclusion takes exactly the check of the holder. */
  lemma ExclusiveExactlyWithHolderCheck(fix: LockRepairs)
    ensures (forall w :: Reaches(fix, w) ==> Exclusive(w)) <==> fix.checkHolder
  {
    if fix.checkHolder {
      forall w | Reaches(fix, w)
        ensures Exclusive(w)
      {
        var worlds, calls :| ServesFromStart(fix, worlds, calls) && worlds[|worlds| - 1] == w;
        RunGuards(fix, worlds, calls, |worlds| - 1);
      }
    } else {
      var w := AnyoneCanFree(fix);
    }
  }

  /** And that the register keeps telling who holds what takes exactly both repairs. */
  lemma ConsistentExactlyWhenRepaired(fix: LockRepairs)
    ensures (forall w :: Reaches(fix, w) ==> Consistent(w)) <==> fix.freshSlot && fix.checkHolder
  {
    if fix.freshSlot && fix.checkHolder {
      forall w | Reaches(fix, w)
        ensures Consistent(w)
      {
        var worlds, calls :| ServesFromStart(fix, worlds, calls) && worlds[|worlds| - 1] == w;
        RunGuards(fix, worlds, calls, |worlds| - 1);
      }
    } else if fix.checkHolder {
      var w := ReleaseIsDropped(fix);
    } else {
      var w := AnyoneCanFree(fix);
    }
  }

  // ---- What a consistent service answers ----

  ghost predicate Compatible(w: World, path: string, mode: string) {
    forall g :: g in w.grants && g.path == path ==> g.mode == SHARED && mode == SHARED
  }

  /** A client with a session is granted a lock exactly when every grant of the path goes with it. */
  lemma GrantedExactlyWhenCompatible(w: World, path: string, client: string, mode: string)
    requires Consistent(w) && Plain(Acquire(path, client, mode))
    ensures AcquireLock(w.server, path, client, mode).1 == NO_ERROR <==>
            !w.server.waiting && client in w.server.leases && Compatible(w, path, mode)
  {
    if w.server.Locked(path) {
      var h :| h in w.server.holders && h.0 == path;
      assert Grant(path, h.1, w.server.db[path]) in w.grants;
    }
  }

  /** With the holder checked, exactly the clients that were granted a lock can release it. */
  lemma ReleasedExactlyByHolders(fix: LockRepairs, w: World, path: string, client: string)
    requires Faithful(w) && fix.checkHolder
    ensures ReleaseLock(fix, w.server, path, client).1 == NO_ERROR <==>
            !w.server.waiting && exists mode :: Grant(path, client, mode) in w.grants
  {
    if w.server.Holds(path, client) {
      assert (path, client) in w.server.holders;
      assert Grant(path, client, w.server.db[path]) in w.grants;
    }
  }

  lemma FreeIsGranted(fix: LockRepairs, w: World, path: string, client: string, mode: string)
    requires Guarded(w) && Plain(Acquire(path, client, mode))
    requires !w.server.Locked(path) && !w.server.waiting && client in w.server.leases
    ensures var w1 := Serve(fix, w, Acquire(path, client, mode)).0;
      && Guarded(w1) && w1.server.Locked(path) && !w1.server.waiting
      && w1.grants == w.grants + {Grant(path, client, mode)}
      && w1.server.holders == w.server.holders + {(path, client)}
      && w1.server.db == w.server.db[path := mode]
    ensures (forall h :: h in w.server.holders ==> h.0 != path) && forall g :: g in w.grants ==> g.path != path
  {
    AcquireGuards(fix, w, Acquire(path, client, mode));
    PutWrites(NextSlot(w.server), path, mode);
  }

  lemma LastReleaseFrees(fix: LockRepairs, w: World, path: string, client: string)
    requires Guarded(w) && fix.freshSlot && fix.checkHolder && w.server.Locked(path) && !w.server.waiting
    requires OnlyHolder(w.server, path, client)
    ensures Serve(fix, w, Release(path, client)).1 == NO_ERROR
    ensures var w' := Serve(fix, w, Release(path, client)).0;
      && (forall g :: g in w'.grants <==> g in w.grants && g.path != path)
      && w'.server.holders == w.server.holders - {(path, client)}
      && w'.server.db == w.server.db[path := FREE]
  {
    GivingUpWrites(fix, w, path, client);
    var (w', reply) := Serve(fix, w, Release(path, client));
    assert w' == GiveUp(fix, w, path, client);
    hide WriteFree, Serve;
    assert forall g :: g in w.grants && g.path == path ==> w.server.Holds(path, g.client);
  }

  /** With both repairs, a release undoes the acquire of a free path: the grants and holders are those of before, the
      path is free again, and no other register moved. */
  lemma ReleaseUndoesAcquire(fix: LockRepairs, w: World, path: string, client: string, mode: string)
    requires Guarded(w) && fix.freshSlot && fix.checkHolder && Plain(Acquire(path, client, mode))
    requires !w.server.Locked(path) && !w.server.waiting && client in w.server.leases
    ensures var w1 := Serve(fix, w, Acquire(path, client, mode)).0;
            var (w2, reply) := Serve(fix, w1, Release(path, client));
      && Grant(path, client, mode) in w1.grants && reply == NO_ERROR
      && w2.grants == w.grants && w2.server.holders == w.server.holders
      && w2.server.db == w.server.db[path := FREE]
  {
    FreeIsGranted(fix, w, path, client, mode);
    var w1 := Serve(fix, w, Acquire(path, client, mode)).0;
    hide Guarded;
    assert OnlyHolder(w1.server, path, client);
    LastReleaseFrees(fix, w1, path, client);
    assert w.server.db[path := mode][path := FREE] == w.server.db[path := FREE];
    var w2 := Serve(fix, w1, Release(path, client)).0;
    assert w2.server.holders == w.server.holders;
    assert w2.grants == w.grants;
  }

  // ---- Outside `Plain` ----

  ghost predicate ParsableKeys(db: map<string, string>) {
    forall path :: path in db ==> '#' !in path
  }

  /** A path with a '#' is never locked: its writes land under the path up to the '#', so every client with a session
      is granted it, whoever else was. */
  lemma HashedPathIsAlwaysGranted(s: LockState, path: string, client: string, mode: string)
    requires ParsableKeys(s.db) && '#' in path && !s.waiting && client in s.leases
    ensures AcquireLock(s, path, client, mode).1 == NO_ERROR
    ensures ParsableKeys(AcquireLock(s, path, client, mode).0.db)
  {
    var kv := path + "#" + mode;
    assert forall i :: 0 <= i < FirstHash(kv) ==> kv[..FirstHash(kv)][i] != '#';
  }

  // ---- One release of the program as written ----

  ghost predicate OnlyHolder(s: LockState, path: string, client: string) {
    s.Holds(path, client) && forall c :: s.Holds(path, c) ==> c == client
  }

  /** The register of one path agrees with the lock map. */
  ghost predicate Agrees(s: LockState, path: string) {
    if path in s.db && s.db[path] == EXCLUSIVE then exists c :: OnlyHolder(s, path, c)
    else if path in s.db && s.db[path] == SHARED then exists c :: s.Holds(path, c)
    else forall c :: !s.Holds(path, c)
  }

  /** Exactly when `ReleaseLock` as written leaves the register and the lock map in agreement. */
  lemma ReleaseKeepsAgreementExactlyWhen(s: LockState, path: string, client: string)
    requires Sound(s) && Agrees(s, path) && !s.waiting
    ensures Agrees(ReleaseLock(UNREPAIRED, s, path, client).0, path) <==>
            if !s.Locked(path) then true
            else if s.slotNumber !in s.decided then OnlyHolder(s, path, client)
            else s.Holds(path, client) ==> s.db[path] == SHARED && !OnlyHolder(s, path, client)
  {
    if s.Locked(path) {
      PutWrites(RemoveHolder(s, path, client), path, FREE);
      var s' := ReleaseLock(UNREPAIRED, s, path, client).0;
      assert forall c :: s'.Holds(path, c) <==> s.Holds(path, c) && c != client;
    }
  }

  // ---- One expiry of the program as written ----

  /** The slot number never moves during a pass, so at most the first write of the pass takes effect. */
  lemma {:induction false} OneClientFreesOnePath(s: LockState, client: string, keys: seq<string>)
    requires forall key :: key in keys ==> s.Locked(key)
    ensures ReleaseLocksForClient(UNREPAIRED, s, client, keys) ==
            if keys == [] || s.slotNumber in s.decided then s else Put(s, keys[0], FREE)
  {
    if keys == [] {
    } else {
      var last := |keys| - 1;
      OneClientFreesOnePath(s, client, keys[..last]);
      assert last > 0 ==> keys[..last][0] == keys[0];
    }
  }

  lemma {:induction false} OnePassFreesOnePath(s: LockState, evictions: seq<Eviction>) returns (key: string)
    requires forall e, k :: e in evictions && k in e.keys ==> s.Locked(k) && s.Holds(k, e.client)
    ensures ReleaseAll(UNREPAIRED, s, evictions) == s ||
            (s.slotNumber !in s.decided && ReleaseAll(UNREPAIRED, s, evictions) == Put(s, key, FREE) && s.AnyHolder(key))
    ensures ReleaseAll(UNREPAIRED, s, evictions) == s <==>
              s.slotNumber in s.decided || forall e :: e in evictions ==> e.keys == []
  {
    if evictions == [] {
      key := "";
    } else {
      var last := |evictions| - 1;
      var client, keys := evictions[last].client, evictions[last].keys;
      assert forall e :: e in evictions[..last] ==> e in evictions;
      key := OnePassFreesOnePath(s, evictions[..last]);
      var before := ReleaseAll(UNREPAIRED, s, evictions[..last]);
      if before == s {
        OneClientFreesOnePath(s, client, keys);
        key := if keys == [] then "" else keys[0];
        assert evictions[last] in evictions;
        if keys != [] {
          assert keys[0] in evictions[last].keys;
          assert s.Holds(keys[0], client);
        }
      } else {
        DroppedPass(before, client, keys);
      }
    }
  }

  /** Once its slot is decided, what is left of a pass changes nothing. */
  lemma {:induction false} DroppedPass(s: LockState, client: string, keys: seq<string>)
    requires s.slotNumber in s.decided
    ensures ReleaseLocksForClient(UNREPAIRED, s, client, keys) == s
  {
    if keys == [] {
    } else {
      DroppedPass(s, client, keys[..|keys| - 1]);
    }
  }

  ghost predicate NobodyExpiresHolding(s: LockState, now: int) {
    forall h :: h in s.holders && h.1 in s.leases ==> s.leases[h.1] > now
  }

  /** Exactly when a pass of the lease checker as written leaves every register in agreement with the lock map: it frees
      the first path it comes to without erasing the holder, or it writes nothing at all. */
  lemma ExpiryKeepsAgreementExactlyWhen(s: LockState, now: int, evictions: seq<Eviction>)
    requires Sound(s) && (forall path :: Agrees(s, path)) && EvictionsOf(s, now, evictions)
    ensures (forall path :: Agrees(ExpireLeases(UNREPAIRED, s, now, evictions), path)) <==>
            s.slotNumber in s.decided || NobodyExpiresHolding(s, now)
  {
    var s1, s' := DropExpired(s, now), ExpireLeases(UNREPAIRED, s, now, evictions);
    forall path
      ensures Agrees(s1, path)
    {
      assert Agrees(s, path);
      SameAgreement(s, s1, path);
    }
    EvictedHold(s, now, evictions);
    var key := OnePassFreesOnePath(s1, evictions);
    if s' != s1 {
      var h :| h in s1.holders && h.0 == key;
      FreedDisagrees(s1, key, h.1);
    }
  }

  lemma SameAgreement(s: LockState, s': LockState, path: string)
    requires s.db == s'.db && s.holders == s'.holders && Agrees(s, path)
    ensures Agrees(s', path)
  {
    assert forall c :: s'.Holds(path, c) <==> s.Holds(path, c);
    if path in s.db && s.db[path] == EXCLUSIVE {
      var c :| OnlyHolder(s, path, c);
      assert OnlyHolder(s', path, c);
    } else if path in s.db && s.db[path] == SHARED {
      var c :| s.Holds(path, c);
      assert s'.Holds(path, c);
    }
  }

  lemma EvictedHold(s: LockState, now: int, evictions: seq<Eviction>)
    requires Sound(s) && (forall path :: Agrees(s, path)) && EvictionsOf(s, now, evictions)
    ensures var s1 := DropExpired(s, now);
      forall e, k :: e in evictions && k in e.keys ==> s1.Locked(k) && s1.Holds(k, e.client)
    ensures NobodyExpiresHolding(s, now) <==> forall e :: e in evictions ==> e.keys == []
  {
    var s1 := DropExpired(s, now);
    forall e, k | e in evictions && k in e.keys
      ensures s1.Locked(k) && s1.Holds(k, e.client)
    {
      assert KeysOf(s, e.client, e.keys) && Agrees(s, k);
      assert s.Holds(k, e.client) && s.Locked(k);
    }
    forall h | h in s.holders && h.1 in s.leases && s.leases[h.1] <= now
      ensures exists e :: e in evictions && e.keys != []
    {
      var e :| e in evictions && e.client == h.1;
      assert KeysOf(s, e.client, e.keys) && s.Holds(h.0, h.1);
      assert h.0 in e.keys;
    }
    forall e | e in evictions && e.keys != []
      ensures !NobodyExpiresHolding(s, now)
    {
      assert e.client in s.leases && s.leases[e.client] <= now;
      assert KeysOf(s, e.client, e.keys) && e.keys[0] in e.keys;
      assert (e.keys[0], e.client) in s.holders;
    }
  }

  lemma FreedDisagrees(s: LockState, key: string, client: string)
    requires Sound(s) && Agrees(s, key) && s.Holds(key, client) && s.slotNumber !in s.decided
    ensures !Agrees(Put(s, key, FREE), key)
  {
    assert s.Locked(key);
    PutWrites(s, key, FREE);
    assert Put(s, key, FREE).Holds(key, client);
  }
}
