/** The lock server object, updated in place over the consensus object it holds. Every method is proved to compute the
    function of LockService.dfy, without the repairs. */
module LockServer {
  import opened PaxosTypes
  import opened Handlers
  import opened PaxosServer
  import opened Decisions
  import opened Extension
  import opened LockService

  /** What `Put` does to the log: its `Start` marks the slot, and the consensus it begins ends in `Learn`. */
  lemma PutIsLearn(r: Server, q: int, kv: string)
    requires r.me < r.numServers && q >= r.lowestSlot && !r.leaderDead
    ensures var (r1, action) := Handlers.Start(r, q);
      && r1.Decided() == r.Decided() && r1.db == r.db
      && (action == Ignore <==> q in r.Decided())
      && (q !in r.Decided() ==>
            && Handlers.Learn(r1, q, kv).Decided() == r.Decided()[q := kv]
            && Handlers.Learn(r1, q, kv).db == ApplyToDb(r.db, kv))
  {
    StartDecidesNothing(r, q);
    var r1 := Handlers.Start(r, q).0;
    LearnDecides(r1, q, kv);
  }

  class ChubbyImpl {
    const paxos: PaxosImpl
    var clientLockMap: set<(string, string)>
    var clientLeaseMap: map<string, int>
    var slotNumber: int

    ghost predicate Valid()
      reads this, paxos
    {
      paxos.Valid() && !paxos.leaderDead && paxos.lowestSlot <= slotNumber
    }

    ghost function State(): LockState
      reads this, paxos
    {
      LockState(paxos.State().Decided(), paxos.paxosDb, slotNumber, clientLockMap, clientLeaseMap,
                paxos.leaderElectionHappened)
    }

    constructor (paxos: PaxosImpl)
      requires paxos.Valid() && !paxos.leaderDead && paxos.lowestSlot <= 0
      ensures Valid() && this.paxos == paxos
      ensures clientLockMap == {} && clientLeaseMap == map[] && slotNumber == 0
    {
      this.paxos, clientLockMap, clientLeaseMap, slotNumber := paxos, {}, map[], 0;
    }

    method Put(path: string, lockingMode: string)
      requires Valid()
      modifies paxos`slots, paxos`paxosDb
      ensures Valid() && State() == LockService.Put(old(State()), path, lockingMode)
    {
      var keyValue := path + "#" + lockingMode;
      PutIsLearn(paxos.State(), slotNumber, keyValue);
      var action := paxos.Start(slotNumber);
      if action != Ignore {
        paxos.Learn(slotNumber, keyValue);
      }
    }

    /** `currentLeader` stands for the address that is sent back with every answer. */
    method AcquireLock(path: string, clientId: string, lockingMode: string) returns (reply: Reply, currentLeader: nat)
      requires Valid()
      modifies this`slotNumber, this`clientLockMap, paxos`slots, paxos`paxosDb
      ensures Valid() && (State(), reply) == LockService.AcquireLock(old(State()), path, clientId, lockingMode)
      ensures currentLeader == Owner(paxos.view, paxos.numServers)
    {
      currentLeader := paxos.view % paxos.numServers;
      if paxos.leaderElectionHappened {
        return Aborted, currentLeader;
      }
      slotNumber := slotNumber + 1;
      if clientId !in clientLeaseMap {
        return Answer(false, "NO_CLIENT_SESSION"), currentLeader;
      }
      if path !in paxos.paxosDb {
        Put(path, lockingMode);
        clientLockMap := clientLockMap + {(path, clientId)};
        return NO_ERROR, currentLeader;
      }
      var value := paxos.paxosDb[path];
      reply := Answer(false, "");
      if lockingMode == SHARED {
        if value == FREE {
          Put(path, lockingMode);
          clientLockMap := clientLockMap + {(path, clientId)};
          reply := NO_ERROR;
        } else if value == SHARED {
          clientLockMap := clientLockMap + {(path, clientId)};
          reply := NO_ERROR;
        } else if value == EXCLUSIVE {
          reply := Answer(false, "EXCLUSIVE_LOCK_HELD");
        }
      } else if lockingMode == EXCLUSIVE {
        if value == FREE {
          Put(path, lockingMode);
          clientLockMap := clientLockMap + {(path, clientId)};
          reply := NO_ERROR;
        } else if value == SHARED {
          reply := Answer(false, "SHARED_LOCK_HELD");
        } else if value == EXCLUSIVE {
          reply := Answer(false, "EXCLUSIVE_LOCK_HELD");
        }
      }
    }

    method ReleaseLock(path: string, clientId: string) returns (reply: Reply, currentLeader: nat)
      requires Valid()
      modifies this`clientLockMap, paxos`slots, paxos`paxosDb
      ensures Valid() && (State(), reply) == LockService.ReleaseLock(UNREPAIRED, old(State()), path, clientId)
      ensures currentLeader == Owner(paxos.view, paxos.numServers)
    {
      currentLeader := paxos.view % paxos.numServers;
      if paxos.leaderElectionHappened {
        return Aborted, currentLeader;
      }
      if path !in paxos.paxosDb {
        return UNACQUIRED, currentLeader;
      }
      var value := paxos.paxosDb[path];
      reply := Answer(false, "");
      if value == FREE {
        reply := UNACQUIRED;
      } else if value == SHARED || value == EXCLUSIVE {
        reply := NO_ERROR;
        Put(path, FREE);
        clientLockMap := clientLockMap - {(path, clientId)};
      }
    }

    /** The call resumes at `now`, after its wait. */
    method KeepAlive(clientId: string, now: int) returns (leaseSeconds: int)
      modifies this`clientLeaseMap
      ensures State() == LockService.KeepAlive(old(State()), clientId, now)
      ensures leaseSeconds * SECOND <= State().leases[clientId] < (leaseSeconds + 1) * SECOND
    {
      clientLeaseMap := clientLeaseMap[clientId := now + LEASE_TIMEOUT];
      leaseSeconds := clientLeaseMap[clientId] / SECOND;
    }

    method ReleaseLocksForClient(clientId: string) returns (lockedKeys: seq<string>)
      requires Valid()
      modifies paxos`slots, paxos`paxosDb
      ensures Valid() && KeysOf(old(State()), clientId, lockedKeys)
      ensures State() == LockService.ReleaseLocksForClient(UNREPAIRED, old(State()), clientId, lockedKeys)
    {
      lockedKeys := [];
      var todo := clientLockMap;
      while todo != {}
        invariant todo <= clientLockMap
        invariant forall key :: key in lockedKeys <==> (key, clientId) in clientLockMap - todo
      {
        var entry :| entry in todo;
        todo := todo - {entry};
        if entry.1 == clientId {
          lockedKeys := lockedKeys + [entry.0];
        }
      }
      for k := 0 to |lockedKeys|
        invariant Valid()
        invariant State() == LockService.ReleaseLocksForClient(UNREPAIRED, old(State()), clientId, lockedKeys[..k])
      {
        var key := lockedKeys[k];
        assert lockedKeys[..k + 1][..k] == lockedKeys[..k];
        if key in paxos.paxosDb && (paxos.paxosDb[key] == SHARED || paxos.paxosDb[key] == EXCLUSIVE) {
          Put(key, FREE);
        }
      }
      assert lockedKeys[..|lockedKeys|] == lockedKeys;
    }

    method ExpiredClients(now: int) returns (expired: seq<string>)
      ensures forall c :: c in expired <==> c in clientLeaseMap && clientLeaseMap[c] <= now
    {
      expired := [];
      var todo := clientLeaseMap.Keys;
      while todo != {}
        invariant todo <= clientLeaseMap.Keys
        invariant forall c :: c in expired <==> c in clientLeaseMap && c !in todo && clientLeaseMap[c] <= now
      {
        var c :| c in todo;
        todo := todo - {c};
        if clientLeaseMap[c] <= now {
          expired := expired + [c];
        }
      }
    }

    method DropLeases(expired: seq<string>)
      modifies this`clientLeaseMap
      ensures clientLeaseMap == old(clientLeaseMap) - (set c | c in expired)
    {
      for k := 0 to |expired|
        invariant clientLeaseMap == old(clientLeaseMap) - (set c | c in expired[..k])
      {
        assert expired[..k + 1] == expired[..k] + [expired[k]];
        clientLeaseMap := clientLeaseMap - {expired[k]};
      }
      assert expired[..|expired|] == expired;
    }

    /** One pass of the lease checker's endless loop. */
    method CheckAndExpireLeases(now: int) returns (evictions: seq<Eviction>)
      requires Valid()
      modifies this`clientLeaseMap, paxos`slots, paxos`paxosDb
      ensures Valid() && EvictionsOf(old(State()), now, evictions)
      ensures State() == ExpireLeases(UNREPAIRED, old(State()), now, evictions)
    {
      var expired := ExpiredClients(now);
      DropLeases(expired);
      assert State() == DropExpired(old(State()), now);
      evictions := ReleaseForAll(expired);
      EvictsThem(old(State()), now, expired, evictions);
    }

    method ReleaseForAll(expired: seq<string>) returns (evictions: seq<Eviction>)
      requires Valid()
      modifies paxos`slots, paxos`paxosDb
      ensures Valid() && EvictsAll(old(State()), expired, evictions)
      ensures State() == ReleaseAll(UNREPAIRED, old(State()), evictions)
    {
      evictions := [];
      ghost var before := State();
      hide ReleaseAll, EvictsAll, KeysOf, LockService.ReleaseLocksForClient;
      NoEvictions(before, expired);
      for k := 0 to |expired|
        invariant Valid() && State().holders == before.holders
        invariant EvictsAll(before, expired[..k], evictions)
        invariant State() == ReleaseAll(UNREPAIRED, before, evictions)
      {
        ghost var s := State();
        var lockedKeys := ReleaseLocksForClient(expired[k]);
        OneMoreEviction(before, s, expired, k, evictions, lockedKeys);
        evictions := evictions + [Eviction(expired[k], lockedKeys)];
      }
      assert expired[..|expired|] == expired;
    }
  }

  /** One eviction for each of the expired clients, of the keys it holds. */
  ghost predicate EvictsAll(s: LockState, expired: seq<string>, evictions: seq<Eviction>) {
    && |evictions| == |expired|
    && forall j :: 0 <= j < |expired| ==>
         evictions[j].client == expired[j] && KeysOf(s, expired[j], evictions[j].keys)
  }

  lemma NoEvictions(s: LockState, expired: seq<string>)
    ensures EvictsAll(s, expired[..0], []) && ReleaseAll(UNREPAIRED, s, []) == s
  {
  }

  lemma OneMoreEviction(
    before: LockState, s: LockState, expired: seq<string>, k: nat, evictions: seq<Eviction>, keys: seq<string>)
    requires k < |expired| && EvictsAll(before, expired[..k], evictions)
    requires s.holders == before.holders && KeysOf(s, expired[k], keys)
    ensures var evictions' := evictions + [Eviction(expired[k], keys)];
      && EvictsAll(before, expired[..k + 1], evictions')
      && ReleaseAll(UNREPAIRED, before, evictions') ==
         LockService.ReleaseLocksForClient(UNREPAIRED, ReleaseAll(UNREPAIRED, before, evictions), expired[k], keys)
  {
    assert forall key :: before.Holds(key, expired[k]) <==> s.Holds(key, expired[k]);
    assert (evictions + [Eviction(expired[k], keys)])[..k] == evictions;
  }

  lemma EvictsThem(s: LockState, now: int, expired: seq<string>, evictions: seq<Eviction>)
    requires EvictsAll(DropExpired(s, now), expired, evictions)
    requires forall c :: c in expired <==> c in s.leases && s.leases[c] <= now
    ensures EvictionsOf(s, now, evictions)
  {
    forall e | e in evictions
      ensures e.client in expired && KeysOf(s, e.client, e.keys)
    {
      var j :| 0 <= j < |evictions| && evictions[j] == e;
      assert KeysOf(DropExpired(s, now), e.client, e.keys);
      assert forall key :: DropExpired(s, now).Holds(key, e.client) <==> s.Holds(key, e.client);
    }
    forall c | c in expired
      ensures exists e :: e in evictions && e.client == c
    {
      var j :| 0 <= j < |expired| && expired[j] == c;
      assert evictions[j] in evictions;
    }
  }
}
