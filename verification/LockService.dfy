/** The lock service: a FREE / SHARED / EXCLUSIVE register per path, written through the replicated log, with leases.
    The class in ChubbyImpl.dfy is proved to compute these functions with `UNREPAIRED`. */
module LockService {
  import opened PaxosTypes
  import opened Handlers

  const FREE := "FREE"
  const SHARED := "SHARED"
  const EXCLUSIVE := "EXCLUSIVE"

  /** Times are nanoseconds of the server's steady clock. */
  const SECOND := 1_000_000_000
  const LEASE_TIMEOUT := 12 * SECOND

  /** The repairs of the lock service; the program itself is `UNREPAIRED`. */
  datatype LockRepairs = LockRepairs(
    freshSlot: bool,  // release and expiry advance the slot number before they write
    checkHolder: bool) // only a holder can release, expiry erases the holder, and FREE waits for the last one
  const UNREPAIRED := LockRepairs(false, false)

  /** The fields of `ChubbyImpl`, and what it sees of its log: the decided slots and the database. `waiting` is
      `leader_election_happened`. */
  datatype LockState = LockState(
    decided: map<int, string>, db: map<string, string>, slotNumber: int,
    holders: set<(string, string)>, leases: map<string, int>, waiting: bool)
  {
    predicate Holds(path: string, client: string) {
      (path, client) in holders
    }

    predicate Locked(path: string) {
      path in db && (db[path] == SHARED || db[path] == EXCLUSIVE)
    }

    predicate AnyHolder(path: string) {
      exists h | h in holders :: h.0 == path
    }
  }

  datatype Reply = Aborted | Answer(success: bool, message: string)

  const NO_ERROR := Answer(true, "NO_ERROR")
  const UNACQUIRED := Answer(false, "TRYING_TO_RELEASE_UNACQUIRED_LOCK")

  /** `Start` on a slot that is already decided writes nothing. */
  function Put(s: LockState, path: string, mode: string): LockState {
    var kv := path + "#" + mode;
    if s.slotNumber in s.decided then s
    else s.(decided := s.decided[s.slotNumber := kv], db := ApplyToDb(s.db, kv))
  }

  function NextSlot(s: LockState): LockState {
    s.(slotNumber := s.slotNumber + 1)
  }

  function AddHolder(s: LockState, path: string, client: string): LockState {
    s.(holders := s.holders + {(path, client)})
  }

  function RemoveHolder(s: LockState, path: string, client: string): LockState {
    s.(holders := s.holders - {(path, client)})
  }

  function AcquireLock(s: LockState, path: string, client: string, mode: string): (LockState, Reply) {
    var s1 := NextSlot(s);
    if s.waiting then (s, Aborted)
    else if client !in s.leases then (s1, Answer(false, "NO_CLIENT_SESSION"))
    else if path !in s.db || (s.db[path] == FREE && (mode == SHARED || mode == EXCLUSIVE)) then
      (AddHolder(Put(s1, path, mode), path, client), NO_ERROR)
    else if s.db[path] == SHARED && mode == SHARED then (AddHolder(s1, path, client), NO_ERROR)
    else if s.db[path] == SHARED && mode == EXCLUSIVE then (s1, Answer(false, "SHARED_LOCK_HELD"))
    else if s.db[path] == EXCLUSIVE && (mode == SHARED || mode == EXCLUSIVE) then
      (s1, Answer(false, "EXCLUSIVE_LOCK_HELD"))
    else (s1, Answer(false, ""))
  }

  function WriteFree(fix: LockRepairs, s: LockState, path: string): LockState {
    if fix.checkHolder && s.AnyHolder(path) then s
    else Put(if fix.freshSlot then NextSlot(s) else s, path, FREE)
  }

  function ReleaseLock(fix: LockRepairs, s: LockState, path: string, client: string): (LockState, Reply) {
    if s.waiting then (s, Aborted)
    else if s.Locked(path) && (fix.checkHolder ==> s.Holds(path, client)) then
      (WriteFree(fix, RemoveHolder(s, path, client), path), NO_ERROR)
    else if path in s.db && s.db[path] != FREE && !s.Locked(path) then (s, Answer(false, ""))
    else (s, UNACQUIRED)
  }

  /** The lease a client gets when its call resumes at `now`. */
  function KeepAlive(s: LockState, client: string, now: int): LockState {
    s.(leases := s.leases[client := now + LEASE_TIMEOUT])
  }

  function EvictKey(fix: LockRepairs, s: LockState, client: string, key: string): LockState {
    var s1 := if fix.checkHolder then RemoveHolder(s, key, client) else s;
    if s.Locked(key) then WriteFree(fix, s1, key) else s1
  }

  /** `ReleaseLocksForClient`, over the client's keys in the order they are visited. */
  function ReleaseLocksForClient(fix: LockRepairs, s: LockState, client: string, keys: seq<string>): LockState {
    if keys == [] then s
    else
      var last := |keys| - 1;
      EvictKey(fix, ReleaseLocksForClient(fix, s, client, keys[..last]), client, keys[last])
  }

  datatype Eviction = Eviction(client: string, keys: seq<string>)

  function ReleaseAll(fix: LockRepairs, s: LockState, evictions: seq<Eviction>): LockState {
    if evictions == [] then s
    else
      var last := |evictions| - 1;
      ReleaseLocksForClient(fix, ReleaseAll(fix, s, evictions[..last]), evictions[last].client, evictions[last].keys)
  }

  function DropExpired(s: LockState, now: int): LockState {
    s.(leases := map c | c in s.leases && s.leases[c] > now :: s.leases[c])
  }

  /** One pass of the lease checker. */
  function ExpireLeases(fix: LockRepairs, s: LockState, now: int, evictions: seq<Eviction>): LockState {
    ReleaseAll(fix, DropExpired(s, now), evictions)
  }

  /** The evictions are of the clients whose lease ran out, and of the keys each of them holds, in any order. */
  ghost predicate EvictionsOf(s: LockState, now: int, evictions: seq<Eviction>) {
    && (forall c :: c in s.leases && s.leases[c] <= now <==> exists e :: e in evictions && e.client == c)
    && forall e :: e in evictions ==> KeysOf(s, e.client, e.keys)
  }

  ghost predicate KeysOf(s: LockState, client: string, keys: seq<string>) {
    forall key :: key in keys <==> s.Holds(key, client)
  }

  // ---- Runs of the service ----

  datatype Grant = Grant(path: string, client: string, mode: string)

  /** `grants` is what the clients were told: a grant lasts until its client releases it or loses its lease. */
  datatype World = World(server: LockState, grants: set<Grant>)

  datatype Call =
    | Acquire(path: string, client: string, mode: string)
    | Release(path: string, client: string)
    | Renew(client: string, now: int)
    | Expire(now: int, evictions: seq<Eviction>)
    | Wait(waiting: bool)

  function Serve(fix: LockRepairs, w: World, call: Call): (World, Reply) {
    var s := w.server;
    match call
    case Acquire(path, client, mode) =>
      var (s', reply) := AcquireLock(s, path, client, mode);
      (World(s', if reply == NO_ERROR then w.grants + {Grant(path, client, mode)} else w.grants), reply)
    case Release(path, client) =>
      var (s', reply) := ReleaseLock(fix, s, path, client);
      (World(s', if reply == NO_ERROR then w.grants - (set g | g in w.grants && g.path == path && g.client == client)
                 else w.grants), reply)
    case Renew(client, now) => (w.(server := KeepAlive(s, client, now)), NO_ERROR)
    case Expire(now, evictions) =>
      (World(ExpireLeases(fix, s, now, evictions),
             set g | g in w.grants && g.client in DropExpired(s, now).leases), NO_ERROR)
    case Wait(waiting) => (w.(server := s.(waiting := waiting)), NO_ERROR)
  }

  /** The calls the program's register understands: two modes, and paths that parse back from `path#mode`. */
  ghost predicate Plain(call: Call) {
    call.Acquire? ==> '#' !in call.path && (call.mode == SHARED || call.mode == EXCLUSIVE)
  }

  ghost predicate Possible(w: World, call: Call) {
    Plain(call) && (call.Expire? ==> EvictionsOf(w.server, call.now, call.evictions))
  }

  ghost predicate Serves(fix: LockRepairs, worlds: seq<World>, calls: seq<Call>) {
    && |worlds| == |calls| + 1
    && forall k :: 0 <= k < |calls| ==> Possible(worlds[k], calls[k]) && worlds[k + 1] == Serve(fix, worlds[k], calls[k]).0
  }

  const NEW_WORLD := World(LockState(map[], map[], 0, {}, map[], false), {})

  ghost predicate ServesFromStart(fix: LockRepairs, worlds: seq<World>, calls: seq<Call>) {
    Serves(fix, worlds, calls) && worlds[0] == NEW_WORLD
  }
}
