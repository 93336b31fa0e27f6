/** Which answer every call of the lock service gets, and what it changes: said of grants and sessions. */
module LockAnswers {
  import opened PaxosTypes
  import opened Handlers
  import opened LockService
  import opened LockLog
  import opened MutualExclusion

  ghost predicate Granted(w: World, path: string, mode: string) {
    exists g :: g in w.grants && g.path == path && g.mode == mode
  }

  lemma RegisterShowsGrants(w: World, path: string)
    requires Consistent(w)
    ensures Granted(w, path, "SHARED") <==> path in w.server.db && w.server.db[path] == "SHARED"
    ensures Granted(w, path, "EXCLUSIVE") <==> path in w.server.db && w.server.db[path] == "EXCLUSIVE"
    ensures path in w.server.db && w.server.db[path] != "SHARED" && w.server.db[path] != "EXCLUSIVE" ==>
              w.server.db[path] == "FREE"
  {
    if w.server.Locked(path) {
      var h :| h in w.server.holders && h.0 == path;
      assert Grant(path, h.1, w.server.db[path]) in w.grants;
    }
  }

  /** An acquire is turned away while the server waits, and then nothing changes; without a session; or because of a grant
      of the path that does not go with it, which the answer names. Otherwise it is granted. */
  lemma AcquireIsAnswered(w: World, path: string, client: string, mode: string)
    requires Consistent(w) && Plain(Acquire(path, client, mode))
    ensures var s := w.server;
      var (s', reply) := AcquireLock(s, path, client, mode);
      if s.waiting then reply == Aborted && s' == s
      else if client !in s.leases then
        reply == Answer(false, "NO_CLIENT_SESSION") && s' == s.(slotNumber := s.slotNumber + 1)
      else if Granted(w, path, "EXCLUSIVE") then
        reply == Answer(false, "EXCLUSIVE_LOCK_HELD") && s' == s.(slotNumber := s.slotNumber + 1)
      else if Granted(w, path, "SHARED") && mode == "EXCLUSIVE" then
        reply == Answer(false, "SHARED_LOCK_HELD") && s' == s.(slotNumber := s.slotNumber + 1)
      else
        && reply == Answer(true, "NO_ERROR")
        && s'.holders == s.holders + {(path, client)} && s'.slotNumber == s.slotNumber + 1
        && s'.leases == s.leases && !s'.waiting
        && if Granted(w, path, "SHARED") then s'.db == s.db && s'.decided == s.decided
           else s'.db == s.db[path := mode] && s'.decided == s.decided[s.slotNumber + 1 := path + "#" + mode]
  {
    RegisterShowsGrants(w, path);
    PutWrites(NextSlot(w.server), path, mode);
    hide Consistent, Granted;
  }

  /** A mode that is none of the two is granted on a path that was never locked, and otherwise refused without a reason. */
  lemma UnknownModeIsAnswered(s: LockState, path: string, client: string, mode: string)
    requires !s.waiting && client in s.leases && mode != "SHARED" && mode != "EXCLUSIVE"
    ensures var (s', reply) := AcquireLock(s, path, client, mode);
      if path in s.db then reply == Answer(false, "") && s' == s.(slotNumber := s.slotNumber + 1)
      else reply == Answer(true, "NO_ERROR") && s'.holders == s.holders + {(path, client)}
  {
  }

  /** A register that holds anything else, because of such a mode, refuses every lock and every release. */
  lemma UnknownRegisterRefuses(fix: LockRepairs, s: LockState, path: string, client: string, mode: string)
    requires !s.waiting && client in s.leases && path in s.db && s.db[path] !in {"FREE", "SHARED", "EXCLUSIVE"}
    ensures AcquireLock(s, path, client, mode) == (s.(slotNumber := s.slotNumber + 1), Answer(false, ""))
    ensures ReleaseLock(fix, s, path, client) == (s, Answer(false, ""))
  {
  }

  /** A release is turned away while the server waits; where nobody holds the path; and, with the holder checked, for a
      client that does not. */
  lemma ReleaseIsAnswered(fix: LockRepairs, w: World, path: string, client: string)
    requires Consistent(w)
    ensures var s := w.server;
      var (s', reply) := ReleaseLock(fix, s, path, client);
      if s.waiting then reply == Aborted && s' == s
      else if (Granted(w, path, "SHARED") || Granted(w, path, "EXCLUSIVE"))
              && (fix.checkHolder ==> exists mode :: Grant(path, client, mode) in w.grants) then
        && reply == Answer(true, "NO_ERROR")
        && s'.holders == s.holders - {(path, client)} && s'.leases == s.leases && !s'.waiting
      else reply == Answer(false, "TRYING_TO_RELEASE_UNACQUIRED_LOCK") && s' == s
  {
    RegisterShowsGrants(w, path);
    if fix.checkHolder {
      ReleasedExactlyByHolders(fix, w, path, client);
    }
    hide Consistent, Granted;
  }

  /** As written, a release that is accepted frees the path exactly when the slot of the last acquire is still open. */
  lemma ReleaseFreesExactlyWhen(s: LockState, path: string, client: string)
    requires Sound(s) && !s.waiting && s.Locked(path)
    ensures var s' := ReleaseLock(UNREPAIRED, s, path, client).0;
      if s.slotNumber in s.decided then s'.db == s.db && s'.decided == s.decided
      else s'.db == s.db[path := "FREE"] && s'.decided == s.decided[s.slotNumber := path + "#FREE"]
    ensures ReleaseLock(UNREPAIRED, s, path, client).0.slotNumber == s.slotNumber
  {
    PutWrites(RemoveHolder(s, path, client), path, FREE);
    assert "#" + FREE == "#FREE";
    assert path + "#" + FREE == path + "#FREE";
  }

  /** A keep-alive renews the lease by 12 s from the moment it resumes, and changes nothing else. */
  lemma KeepAliveRenews(fix: LockRepairs, w: World, client: string, now: int)
    ensures Serve(fix, w, Renew(client, now)).0 ==
            w.(server := w.server.(leases := w.server.leases[client := now + 12_000_000_000]))
  {
  }

  lemma EvictionKeepsLeases(fix: LockRepairs, s: LockState, client: string, keys: seq<string>)
    ensures ReleaseLocksForClient(fix, s, client, keys).leases == s.leases
    ensures ReleaseLocksForClient(fix, s, client, keys).waiting == s.waiting
  {
    if keys == [] {
    } else {
      EvictionKeepsLeases(fix, s, client, keys[..|keys| - 1]);
    }
  }

  lemma {:induction false} PassKeepsLeases(fix: LockRepairs, s: LockState, evictions: seq<Eviction>)
    ensures ReleaseAll(fix, s, evictions).leases == s.leases && ReleaseAll(fix, s, evictions).waiting == s.waiting
  {
    if evictions == [] {
    } else {
      var last := |evictions| - 1;
      PassKeepsLeases(fix, s, evictions[..last]);
      EvictionKeepsLeases(fix, ReleaseAll(fix, s, evictions[..last]), evictions[last].client, evictions[last].keys);
    }
  }

  /** A pass of the lease checker drops exactly the leases that are not later than now. */
  lemma PassDropsExpired(fix: LockRepairs, w: World, now: int, evictions: seq<Eviction>)
    ensures var w' := Serve(fix, w, Expire(now, evictions)).0;
      && (forall c :: c in w'.server.leases <==> c in w.server.leases && now < w.server.leases[c])
      && (forall c :: c in w'.server.leases ==> w'.server.leases[c] == w.server.leases[c])
      && w'.server.waiting == w.server.waiting
  {
    PassKeepsLeases(fix, DropExpired(w.server, now), evictions);
  }

  // ---- Slot numbers ----

  /** How many of the first `k` calls were acquires that the server did not turn away waiting. */
  ghost function Acquires(worlds: seq<World>, calls: seq<Call>, k: nat): nat
    requires k <= |calls| <= |worlds|
  {
    if k == 0 then 0
    else Acquires(worlds, calls, k - 1) + if calls[k - 1].Acquire? && !worlds[k - 1].server.waiting then 1 else 0
  }

  lemma {:induction false} PassKeepsSlotNumber(s: LockState, evictions: seq<Eviction>)
    ensures ReleaseAll(UNREPAIRED, s, evictions).slotNumber == s.slotNumber
  {
    if evictions == [] {
    } else {
      var last := |evictions| - 1;
      PassKeepsSlotNumber(s, evictions[..last]);
      EvictionKeepsSlotNumber(ReleaseAll(UNREPAIRED, s, evictions[..last]), evictions[last].client, evictions[last].keys);
    }
  }

  lemma {:induction false} EvictionKeepsSlotNumber(s: LockState, client: string, keys: seq<string>)
    ensures ReleaseLocksForClient(UNREPAIRED, s, client, keys).slotNumber == s.slotNumber
  {
    if keys == [] {
    } else {
      EvictionKeepsSlotNumber(s, client, keys[..|keys| - 1]);
    }
  }

  lemma CallMovesSlotNumber(w: World, call: Call)
    ensures Serve(UNREPAIRED, w, call).0.server.slotNumber ==
            w.server.slotNumber + if call.Acquire? && !w.server.waiting then 1 else 0
  {
    if call.Expire? {
      PassKeepsSlotNumber(DropExpired(w.server, call.now), call.evictions);
    }
  }

  /** As written, the slot number is the number of acquires so far, granted or refused: nothing else advances it. */
  lemma {:induction false} SlotNumberCountsAcquires(worlds: seq<World>, calls: seq<Call>, k: nat)
    requires ServesFromStart(UNREPAIRED, worlds, calls) && k < |worlds|
    ensures worlds[k].server.slotNumber == Acquires(worlds, calls, k)
  {
    if k == 0 {
    } else {
      SlotNumberCountsAcquires(worlds, calls, k - 1);
      assert Possible(worlds[k - 1], calls[k - 1]);
      CallMovesSlotNumber(worlds[k - 1], calls[k - 1]);
    }
  }
}
