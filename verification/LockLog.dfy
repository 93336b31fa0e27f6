/** What every run of the lock service keeps, with or without the repairs: the register moves only through FREE. */
module LockLog {
  import opened PaxosTypes
  import opened Handlers
  import opened Replicas
  import opened LockService

  /** The slots above the slot number are undecided, and the register holds one of the three modes. */
  ghost predicate Sound(s: LockState) {
    && (forall q :: q in s.decided ==> q <= s.slotNumber)
    && forall path :: path in s.db ==> '#' !in path && (s.db[path] == FREE || s.Locked(path))
  }

  /** The log decided `path#FREE` between the two states. */
  ghost predicate Freed(s: LockState, s': LockState, path: string) {
    exists q :: q !in s.decided && q in s'.decided && s'.decided[q] == path + "#" + FREE
  }

  lemma PutWrites(s: LockState, path: string, mode: string)
    requires '#' !in path
    ensures Put(s, path, mode) ==
            if s.slotNumber in s.decided then s
            else s.(decided := s.decided[s.slotNumber := path + "#" + mode], db := s.db[path := mode])
  {
    ParsesBack(path, mode);
  }

  /** Nothing is lost from the log, and every register moved by this part of a call was freed. */
  ghost predicate OnlyFrees(s: LockState, s': LockState) {
    && s.decided.Keys <= s'.decided.Keys
    && (forall q :: q in s.decided ==> s'.decided[q] == s.decided[q])
    && s.db.Keys == s'.db.Keys
    && forall path :: path in s.db && s'.db[path] != s.db[path] ==> s'.db[path] == FREE && Freed(s, s', path)
  }

  lemma OnlyFreesOn(a: LockState, b: LockState, d: LockState)
    requires OnlyFrees(a, b) && OnlyFrees(b, d)
    ensures OnlyFrees(a, d)
  {
    forall path | path in a.db && d.db[path] != a.db[path]
      ensures d.db[path] == FREE && Freed(a, d, path)
    {
      if b.db[path] != a.db[path] {
        var q :| q !in a.decided && q in b.decided && b.decided[q] == path + "#" + FREE;
        assert q in d.decided;
      } else {
        var q :| q !in b.decided && q in d.decided && d.decided[q] == path + "#" + FREE;
        assert q !in a.decided;
      }
    }
  }

  lemma WriteFreeFrees(fix: LockRepairs, s: LockState, path: string)
    requires Sound(s) && s.Locked(path)
    ensures Sound(WriteFree(fix, s, path)) && OnlyFrees(s, WriteFree(fix, s, path))
  {
    var s1 := if fix.freshSlot then NextSlot(s) else s;
    PutWrites(s1, path, FREE);
    var s' := WriteFree(fix, s, path);
    if s'.decided != s.decided {
      assert s'.decided[s1.slotNumber] == path + "#" + FREE;
      assert s1.slotNumber !in s.decided;
    }
  }

  lemma ReleaseFrees(fix: LockRepairs, s: LockState, path: string, client: string)
    requires Sound(s)
    ensures var s' := ReleaseLock(fix, s, path, client).0; Sound(s') && OnlyFrees(s, s')
  {
    if s.Locked(path) {
      WriteFreeFrees(fix, RemoveHolder(s, path, client), path);
    }
  }

  lemma {:induction false} EvictionFrees(fix: LockRepairs, s: LockState, client: string, keys: seq<string>)
    requires Sound(s)
    ensures var s' := ReleaseLocksForClient(fix, s, client, keys); Sound(s') && OnlyFrees(s, s')
  {
    if keys == [] {
    } else {
      var last := |keys| - 1;
      EvictionFrees(fix, s, client, keys[..last]);
      var s1 := ReleaseLocksForClient(fix, s, client, keys[..last]);
      var s2 := if fix.checkHolder then RemoveHolder(s1, keys[last], client) else s1;
      if s1.Locked(keys[last]) {
        WriteFreeFrees(fix, s2, keys[last]);
      }
      assert OnlyFrees(s1, s2);
      OnlyFreesOn(s, s1, EvictKey(fix, s1, client, keys[last]));
    }
  }

  lemma {:induction false} ExpiryFrees(fix: LockRepairs, s: LockState, evictions: seq<Eviction>)
    requires Sound(s)
    ensures var s' := ReleaseAll(fix, s, evictions); Sound(s') && OnlyFrees(s, s')
  {
    if evictions == [] {
    } else {
      var last := |evictions| - 1;
      ExpiryFrees(fix, s, evictions[..last]);
      var s1 := ReleaseAll(fix, s, evictions[..last]);
      EvictionFrees(fix, s1, evictions[last].client, evictions[last].keys);
      OnlyFreesOn(s, s1, ReleaseAll(fix, s, evictions));
    }
  }

  /** An acquire writes only into a path that is free or new, and its write is never dropped. */
  lemma AcquireWrites(s: LockState, path: string, client: string, mode: string)
    requires Sound(s) && Plain(Acquire(path, client, mode))
    ensures var (s', reply) := AcquireLock(s, path, client, mode);
      && Sound(s')
      && (s'.db == s.db || (!s.Locked(path) && s'.db == s.db[path := mode]))
      && (reply == NO_ERROR ==> path in s'.db && s'.db[path] == mode)
      && (reply == NO_ERROR && s.Locked(path) ==> s.db[path] == mode == SHARED)
      && (forall q :: q in s.decided ==> q in s'.decided && s'.decided[q] == s.decided[q])
  {
    PutWrites(NextSlot(s), path, mode);
  }

  /** The stored mode never moves directly between SHARED and EXCLUSIVE: a locked register stays as it is or is freed
      by an entry of the log. */
  lemma LockedStaysOrIsFreed(fix: LockRepairs, w: World, call: Call, path: string)
    requires Sound(w.server) && Plain(call)
    ensures var s' := Serve(fix, w, call).0.server;
      && Sound(s')
      && (w.server.Locked(path) ==>
            path in s'.db && (s'.db[path] == w.server.db[path] || (s'.db[path] == FREE && Freed(w.server, s', path))))
  {
    match call
    case Acquire(p, client, mode) => AcquireWrites(w.server, p, client, mode);
    case Release(p, client) => ReleaseFrees(fix, w.server, p, client);
    case Expire(now, evictions) => ExpiryFrees(fix, DropExpired(w.server, now), evictions);
    case _ =>
  }

  ghost predicate Acquired(fix: LockRepairs, worlds: seq<World>, calls: seq<Call>, k: nat, path: string, mode: string) {
    && k < |calls| && k < |worlds| && calls[k].Acquire? && calls[k].path == path && calls[k].mode == mode
    && Serve(fix, worlds[k], calls[k]).1 == NO_ERROR
  }

  lemma {:induction false} RunSound(fix: LockRepairs, worlds: seq<World>, calls: seq<Call>, k: nat)
    requires Serves(fix, worlds, calls) && Sound(worlds[0].server) && k < |worlds|
    ensures Sound(worlds[k].server)
  {
    if k == 0 {
    } else {
      RunSound(fix, worlds, calls, k - 1);
      assert Possible(worlds[k - 1], calls[k - 1]);
      LockedStaysOrIsFreed(fix, worlds[k - 1], calls[k - 1], "");
    }
  }

  lemma {:induction false} HeldSince(fix: LockRepairs, worlds: seq<World>, calls: seq<Call>, i: nat, k: nat, path: string)
    requires Serves(fix, worlds, calls) && Sound(worlds[0].server) && i <= k < |worlds|
    requires worlds[i].server.Locked(path)
    requires forall j :: i <= j < k ==> !Freed(worlds[j].server, worlds[j + 1].server, path)
    ensures worlds[k].server.Locked(path) && worlds[k].server.db[path] == worlds[i].server.db[path]
  {
    if i == k {
    } else {
      HeldSince(fix, worlds, calls, i, k - 1, path);
      RunSound(fix, worlds, calls, k - 1);
      assert Possible(worlds[k - 1], calls[k - 1]);
      LockedStaysOrIsFreed(fix, worlds[k - 1], calls[k - 1], path);
    }
  }

  /** Conflicting grants are separated: between two successful acquires of a path, one of them EXCLUSIVE, the log
      decided `path#FREE`. */
  lemma ConflictingGrantsAreSeparated(
    fix: LockRepairs, worlds: seq<World>, calls: seq<Call>, i: nat, k: nat, path: string, mode: string, mode': string)
    requires Serves(fix, worlds, calls) && Sound(worlds[0].server) && i < k
    requires Acquired(fix, worlds, calls, i, path, mode) && Acquired(fix, worlds, calls, k, path, mode')
    requires mode == EXCLUSIVE || mode' == EXCLUSIVE
    ensures exists j :: i < j < k && Freed(worlds[j].server, worlds[j + 1].server, path)
  {
    RunSound(fix, worlds, calls, i);
    RunSound(fix, worlds, calls, k);
    assert Possible(worlds[i], calls[i]) && Possible(worlds[k], calls[k]);
    AcquireWrites(worlds[i].server, path, calls[i].client, mode);
    AcquireWrites(worlds[k].server, path, calls[k].client, mode');
    if forall j :: i + 1 <= j < k ==> !Freed(worlds[j].server, worlds[j + 1].server, path) {
      HeldSince(fix, worlds, calls, i + 1, k, path);
    }
  }
}
