/** The values the consensus layer works on: slots, one server's fields, and the replies of its RPC handlers. */
module PaxosTypes {

  type pos = x: int | 1 <= x witness 1

  datatype Option<+T> = None | Some(value: T)

  datatype ConsensusStatus = DECIDED | NOT_DECIDED | PENDING | FORGOTTEN

  /** One log slot. `acceptedView` is the view `vA` was accepted in (-1 before any accept): the program does not
      keep it, because `AddSlots` overwrites `nA`; only the repaired rule `rankByAcceptedView` reads it. */
  datatype Slot = Slot(
    n: int, nP: int, nA: int, vA: string, highestN: int, value: string, status: ConsensusStatus, acceptedView: int)

  /** The repairs of the consensus protocol; the program itself is `AS_WRITTEN`. */
  datatype Repairs = Repairs(
    rankByAcceptedView: bool, // Prepare answers are ranked by the view the value was accepted in, not by `nA`
    promiseViews: bool,       // Prepare carries the view, and is refused or adopted as Elect does
    needMajority: bool,       // a phase that gathered no majority stops instead of falling through
    keepProposal: bool)       // a leader proposes one value per view and slot
  {
    predicate All() {
      rankByAcceptedView && promiseViews && needMajority && keepProposal
    }
  }

  const AS_WRITTEN := Repairs(false, false, false, false)

  /** The fields of `PaxosImpl`. `proposed` is the memory of the repair `keepProposal`. */
  datatype Server = Server(
    me: nat, numServers: pos, view: nat, highestAcceptedSeq: int, lowestSlot: int, done: seq<int>,
    slots: map<int, Slot>, leaderDead: bool, missedHeartbeats: int, electionHappened: bool,
    db: map<string, string>, proposed: map<(nat, int), string>)
  {
    function Decided(): map<int, string> {
      map q | q in slots && slots[q].status == DECIDED :: slots[q].value
    }

    function LatestDone(): int {
      if me < |done| then done[me] else -1
    }
  }

  datatype ElectReply = ElectReply(ok: bool, view: int, highestSeq: int)

  datatype PrepareReply = PrepareReply(
    ok: bool, nA: int, vA: string, highestN: int, value: string, latestDone: int, acceptedView: int)

  datatype AcceptReply = AcceptReply(ok: bool, view: int, value: string, latestDone: int)

  function Max(a: int, b: int): int {
    if a < b then b else a
  }
}
