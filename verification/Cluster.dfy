/** The whole cell as a state machine: one atomic step per RPC handler and per answer that reaches its caller.
    A request may be lost (its delivery step never happens), executed with the answer lost (the caller takes `None`),
    or executed and answered. `fix` selects the program as written or any choice of repairs. */
module Cluster {
  import opened PaxosTypes
  import opened Handlers
  import opened Tallies
  import opened Quorums

  /** `oneElection` is assumption A: a server has at most one election in flight, and none during a Prepare round of its
      own. Nothing in the program enforces it, and only the results that say so rest on it. */
  datatype Cell = Cell(n: pos, fix: Repairs, oneElection: bool)

  /** Every request and every answer that was ever sent. Prepare and Accept requests of view `w` come from its owner. */
  datatype Message =
    | StartCall(q: int, v: string)
    | Redirect(at: nat, q: int, v: string)
    | Forwarded(q: int, v: string)
    | Launch(owner: nat, q: int, v: string, view: nat)
    | ElectReq(view: nat)
    | ElectAns(view: nat, from: nat, electReply: ElectReply)
    | PrepareReq(q: int, prop: int, view: nat)
    | PrepareAns(q: int, prop: int, view: nat, from: nat, prepareReply: PrepareReply)
    | AcceptReq(q: int, view: nat, v: string)
    | AcceptAns(q: int, view: nat, v: string, from: nat, acceptReply: AcceptReply)
    | LearnReq(q: int, v: string)
    | HeartbeatReq(view: nat, done: seq<int>, decided: map<int, string>)
    | HeartbeatAns(to: nat, decided: map<int, string>)

  /** A running `StartOnNewSlot`; `slot->mu` allows one per server and slot. */
  datatype Phase =
    | Preparing(prop: int, prepares: seq<Option<PrepareReply>>)
    | Accepting(accepted: string, accepts: seq<Option<AcceptReply>>)
    | Learning(learned: string)

  datatype Proposer = Proposer(v: string, view: nat, phase: Phase)

  datatype Election = Election(target: nat, answers: seq<Option<ElectReply>>)

  /** History, kept only to state properties: what happened, in order. */
  datatype Event =
    | Voted(server: nat, q: int, view: nat, v: string)   // an OK answer to Accept
    | Acked(server: nat, view: nat, highest: int)        // an OK answer to Elect, or the winner's own
    | Won(server: nat, view: nat)
    | Learned(server: nat, q: int)                       // Learn was executed

  /** Who acknowledged a won view, with the highest accepted slot each one reported, and the winner's own after that. */
  datatype Win = Win(reported: map<nat, int>, highest: int)

  datatype State = State(
    servers: seq<Server>, elections: map<(nat, nat), Election>, proposers: map<(nat, int), Proposer>,
    net: set<Message>, log: seq<Event>, wins: map<nat, Win>)

  datatype Step =
    | CallStart(i: nat, q: int, v: string)
    | PassOn(i: nat, q: int, v: string)
    | ArriveForward(i: nat, q: int, v: string)
    | Begin(i: nat, q: int, v: string, view: nat)
    | DeliverPrepare(i: nat, q: int, prop: int, view: nat)
    | AnswerPrepare(i: nat, q: int, prepareAnswer: Option<PrepareReply>)
    | FinishPrepare(i: nat, q: int)
    | DeliverAccept(i: nat, q: int, view: nat, v: string)
    | AnswerAccept(i: nat, q: int, acceptAnswer: Option<AcceptReply>)
    | FinishAccept(i: nat, q: int)
    | DeliverLearn(i: nat, q: int, v: string)
    | FinishLearn(i: nat, q: int)
    | SendHeartbeat(i: nat, to: nat)
    | DeliverHeartbeat(i: nat, view: nat, done: seq<int>, decided: map<int, string>)
    | AnswerHeartbeat(i: nat, decided: map<int, string>)
    | Detect(i: nat, x: nat)
    | DeliverElect(i: nat, view: nat)
    | AnswerElect(i: nat, x: nat, electAnswer: Option<ElectReply>)
    | FinishElection(i: nat, x: nat)

  function InitServer(c: Cell, i: nat): Server {
    Server(i, c.n, 0, 0, 0, seq(c.n, k => -1), map[], false, 0, false, map[], map[])
  }

  function Init(c: Cell): State {
    State(seq(c.n, (i: nat) => InitServer(c, i)), map[], map[], {}, [], map[])
  }

  // ---- Effects: what a step does at its server `i` (and, for proposers, slot `q`) ----

  datatype Change<+T> = Keep | Set(value: T) | Drop

  datatype Effect = Effect(
    server: Server, sent: set<Message>, events: seq<Event>, proposer: Change<Proposer>, x: nat,
    election: Change<Election>, win: Option<(nat, Win)>)

  function Update<K, V>(m: map<K, V>, k: K, change: Change<V>): map<K, V> {
    match change
    case Keep => m
    case Set(v) => m[k := v]
    case Drop => m - {k}
  }

  function Commit(s: State, i: nat, q: int, e: Effect): State
    requires i < |s.servers|
  {
    State(s.servers[i := e.server], Update(s.elections, (i, e.x), e.election), Update(s.proposers, (i, q), e.proposer),
          s.net + e.sent, s.log + e.events, if e.win.Some? then s.wins[e.win.value.0 := e.win.value.1] else s.wins)
  }

  function Sends(r: Server, sent: set<Message>): Effect {
    Effect(r, sent, [], Keep, 0, Keep, None)
  }

  function StartEffect(r: Server, i: nat, q: int, v: string): Effect {
    var (r1, action) := Start(r, q);
    Sends(r1, match action
              case Ignore => {}
              case Propose(view) => {Launch(i, q, v, view)}
              case ForwardToLeader => {Redirect(i, q, v)})
  }

  function PassOnEffect(r: Server, i: nat, q: int, v: string): Effect {
    var (r1, action) := StartOnForward(r, q);
    Sends(r1, if action.Propose? then {Launch(i, q, v, action.view)} else {Forwarded(q, v)})
  }

  function CallStartEffect(r: Server, i: nat, q: int, v: string): Effect {
    var e := StartEffect(r, i, q, v);
    e.(sent := e.sent + {StartCall(q, v)})
  }

  /** The value a leader sends in Accept requests; `proposed` remembers it. */
  function ProposalFor(fix: Repairs, r: Server, q: int, view: nat, x: string): string {
    if fix.keepProposal && (view, q) in r.proposed then r.proposed[(view, q)] else x
  }

  function AcceptPhase(fix: Repairs, r: Server, q: int, p: Proposer, x: string): Effect {
    var y := ProposalFor(fix, r, q, p.view, x);
    Effect(r.(proposed := r.proposed[(p.view, q) := y]), {AcceptReq(q, p.view, y)}, [],
           Set(p.(phase := Accepting(y, []))), 0, Keep, None)
  }

  function LearnPhase(r: Server, q: int, p: Proposer, x: string): Effect {
    Effect(r, {LearnReq(q, x)}, [], Set(p.(phase := Learning(x))), 0, Keep, None)
  }

  /** `StartOnNewSlot` gets `slot->mu`: nothing to do, the Prepare phase, or straight to the Accept phase. */
  function BeginEffect(c: Cell, r: Server, q: int, v: string, view: nat): Effect
    requires q in r.slots
  {
    var slot := r.slots[q];
    if slot.status == DECIDED then Sends(r, {})
    else if q <= r.highestAcceptedSeq then
      var prop := AdvanceN(slot.n, slot.highestN, c.n);
      Effect(r.(slots := r.slots[q := slot.(n := prop)]), {PrepareReq(q, prop, view)}, [],
             Set(Proposer(v, view, Preparing(prop, []))), 0, Keep, None)
    else
      AcceptPhase(c.fix, r, q, Proposer(v, view, Accepting(v, [])), v)
  }

  function DeliverPrepareEffect(c: Cell, r: Server, i: nat, q: int, prop: int, view: nat): Effect {
    var (r1, a) := Prepare(c.fix, r, q, prop, view);
    Sends(r1, if a.Some? then {PrepareAns(q, prop, view, i, a.value)} else {})
  }

  function AnswerPrepareEffect(r: Server, p: Proposer, a: Option<PrepareReply>): Effect
    requires p.phase.Preparing?
  {
    Sends(r, {}).(proposer := Set(p.(phase := p.phase.(prepares := p.phase.prepares + [a]))))
  }

  function TallyOf(c: Cell, r: Server, q: int, p: Proposer): PrepareTally
    requires q in r.slots && p.phase.Preparing?
  {
    TallyPrepare(c.fix, c.n, p.v, r.slots[q].highestN, p.phase.prepares)
  }

  /** After the Prepare phase: step down, stop, learn a decided value, or go on to Accept.
      (The same step-down test after Accept, lines 531-543, is never true: it passed here.) */
  function FinishPrepareEffect(c: Cell, r: Server, q: int, p: Proposer): Effect
    requires q in r.slots && p.phase.Preparing?
  {
    var t := TallyOf(c, r, q, p);
    var r1 := r.(slots := r.slots[q := r.slots[q].(highestN := t.highestN)]);
    if t.seen > p.view then
      Effect(Adopt(r1, t.seen), {Redirect(r.me, q, p.v)}, [], Drop, 0, Keep, None)
    else if c.fix.needMajority && t.majority <= c.n / 2 && t.decided.None? then
      Effect(r1, {}, [], Drop, 0, Keep, None)
    else if t.decided.Some? then
      LearnPhase(r1, q, p, t.decided.value)
    else
      AcceptPhase(c.fix, r1, q, p, if t.va == "" then p.v else t.va)
  }

  function DeliverAcceptEffect(r: Server, i: nat, q: int, view: nat, v: string): Effect {
    var (r1, a) := Accept(r, q, view, v);
    Effect(r1, if a.Some? then {AcceptAns(q, view, v, i, a.value)} else {},
           if a.Some? && a.value.ok then [Voted(i, q, view, v)] else [], Keep, 0, Keep, None)
  }

  function AnswerAcceptEffect(r: Server, p: Proposer, a: Option<AcceptReply>): Effect
    requires p.phase.Accepting?
  {
    Sends(r, {}).(proposer := Set(p.(phase := p.phase.(accepts := p.phase.accepts + [a]))))
  }

  function FinishAcceptEffect(c: Cell, r: Server, q: int, p: Proposer): Effect
    requires p.phase.Accepting?
  {
    var t := TallyAccept(q, p.phase.accepts);
    if t.decided || (c.fix.needMajority && t.majority <= c.n / 2) then Sends(r, {}).(proposer := Drop)
    else LearnPhase(r, q, p, p.phase.accepted)
  }

  function DeliverLearnEffect(r: Server, i: nat, q: int, v: string): Effect {
    Sends(Learn(r, q, v), {}).(events := if q < r.lowestSlot then [] else [Learned(i, q)])
  }

  /** SendHeartbeats appends `done` to the same request once per peer. */
  function Repeat(done: seq<int>, k: nat): seq<int> {
    if k == 0 then [] else Repeat(done, k - 1) + done
  }

  function DeliverHeartbeatEffect(c: Cell, r: Server, view: nat, done: seq<int>, decided: map<int, string>): Effect {
    var (r1, a) := Heartbeat(r, Owner(view, c.n), view, done, decided);
    Sends(r1, if a.Some? then {HeartbeatAns(Owner(view, c.n), a.value)} else {})
  }

  function DetectEffect(r: Server, x: nat): Effect
    requires r.me < r.numServers
  {
    var (r1, target) := DetectLeaderFailure(r);
    if target.None? then Sends(r1, {})
    else Sends(r1, {ElectReq(target.value)}).(x := x, election := Set(Election(target.value, [])))
  }

  function DeliverElectEffect(r: Server, i: nat, view: nat): Effect {
    var (r1, a) := Elect(r, view);
    Sends(r1, {ElectAns(view, i, a)}).(events := if a.ok then [Acked(i, view, a.highestSeq)] else [])
  }

  function AnswerElectEffect(r: Server, x: nat, e: Election, a: Option<ElectReply>): Effect {
    Sends(r, {}).(x := x, election := Set(e.(answers := e.answers + [a])))
  }

  function Reported(answers: seq<Option<ElectReply>>, i: nat, own: int): map<nat, int> {
    map k | k in ElectOks(answers) + {i} :: if k == i then own else answers[k].value.highestSeq
  }

  function FinishElectionEffect(r: Server, i: nat, x: nat, e: Election): Effect {
    match Conclude(r, e.target, TallyElect(e.answers))
    case Retry => Sends(r, {}).(x := x, election := Set(e.(answers := [])))
    case Ended(r1, won) =>
      if won then
        Effect(r1, {}, [Acked(i, e.target, r1.highestAcceptedSeq), Won(i, e.target)], Keep, x, Drop,
               Some((e.target, Win(Reported(e.answers, i, r1.highestAcceptedSeq), r1.highestAcceptedSeq))))
      else
        Sends(r1, {}).(x := x, election := Drop)
  }

  // ---- Guards ----

  predicate CanBegin(c: Cell, s: State, i: nat, q: int, v: string, view: nat)
    requires i < |s.servers|
  {
    && Launch(i, q, v, view) in s.net && (i, q) !in s.proposers && q in s.servers[i].slots
    && (c.oneElection && q <= s.servers[i].highestAcceptedSeq ==> (i, 0) !in s.elections)
  }

  predicate InPrepare(s: State, i: nat, q: int)
    requires i < |s.servers|
  {
    (i, q) in s.proposers && q in s.servers[i].slots && s.proposers[(i, q)].phase.Preparing?
  }

  predicate CanAnswerPrepare(c: Cell, s: State, i: nat, q: int, a: Option<PrepareReply>)
    requires i < |s.servers|
  {
    && InPrepare(s, i, q)
    && var p := s.proposers[(i, q)];
    && |p.phase.prepares| < c.n && !TallyOf(c, s.servers[i], q, p).stop
    && (a.Some? ==> PrepareAns(q, p.phase.prop, p.view, |p.phase.prepares|, a.value) in s.net)
  }

  predicate CanFinishPrepare(c: Cell, s: State, i: nat, q: int)
    requires i < |s.servers|
  {
    && InPrepare(s, i, q)
    && var p := s.proposers[(i, q)];
    |p.phase.prepares| == c.n || TallyOf(c, s.servers[i], q, p).stop
  }

  predicate CanAnswerAccept(c: Cell, s: State, i: nat, q: int, a: Option<AcceptReply>) {
    && (i, q) in s.proposers && s.proposers[(i, q)].phase.Accepting?
    && var p := s.proposers[(i, q)];
    && |p.phase.accepts| < c.n
    && (a.Some? ==> AcceptAns(q, p.view, p.phase.accepted, |p.phase.accepts|, a.value) in s.net)
  }

  predicate CanFinishAccept(c: Cell, s: State, i: nat, q: int) {
    (i, q) in s.proposers && s.proposers[(i, q)].phase.Accepting? && |s.proposers[(i, q)].phase.accepts| == c.n
  }

  /** Each election of a server gets a number of its own; under assumption A number 0 is enough. */
  ghost predicate CanDetect(c: Cell, s: State, i: nat, x: nat)
    requires i < |s.servers|
  {
    && s.servers[i].me < s.servers[i].numServers
    && (DetectEffect(s.servers[i], x).election.Set? ==>
          && (i, x) !in s.elections
          && (c.oneElection ==> x == 0 && forall q :: (i, q) in s.proposers ==> !s.proposers[(i, q)].phase.Preparing?))
  }

  predicate CanAnswerElect(c: Cell, s: State, i: nat, x: nat, a: Option<ElectReply>) {
    && (i, x) in s.elections
    && var e := s.elections[(i, x)];
    && |e.answers| < c.n
    && (a.Some? ==> |e.answers| != i && ElectAns(e.target, |e.answers|, a.value) in s.net)
  }

  ghost predicate Enabled(c: Cell, s: State, t: Step) {
    && t.i < |s.servers| == c.n
    && match t
       case CallStart(i, q, v) => v != ""
       case PassOn(i, q, v) => Redirect(i, q, v) in s.net
       case ArriveForward(i, q, v) => Forwarded(q, v) in s.net
       case Begin(i, q, v, view) => CanBegin(c, s, i, q, v, view)
       case DeliverPrepare(i, q, prop, view) => PrepareReq(q, prop, view) in s.net
       case AnswerPrepare(i, q, a) => CanAnswerPrepare(c, s, i, q, a)
       case FinishPrepare(i, q) => CanFinishPrepare(c, s, i, q)
       case DeliverAccept(i, q, view, v) => AcceptReq(q, view, v) in s.net
       case AnswerAccept(i, q, a) => CanAnswerAccept(c, s, i, q, a)
       case FinishAccept(i, q) => CanFinishAccept(c, s, i, q)
       case DeliverLearn(i, q, v) => LearnReq(q, v) in s.net
       case FinishLearn(i, q) => (i, q) in s.proposers && s.proposers[(i, q)].phase.Learning?
       case SendHeartbeat(i, to) => to < c.n && Owner(s.servers[i].view, c.n) == i
       case DeliverHeartbeat(i, view, done, decided) => HeartbeatReq(view, done, decided) in s.net
       case AnswerHeartbeat(i, decided) => HeartbeatAns(i, decided) in s.net
       case Detect(i, x) => CanDetect(c, s, i, x)
       case DeliverElect(i, view) => ElectReq(view) in s.net && i != Owner(view, c.n)
       case AnswerElect(i, x, a) => CanAnswerElect(c, s, i, x, a)
       case FinishElection(i, x) => (i, x) in s.elections && |s.elections[(i, x)].answers| == c.n
  }

  ghost function EffectOf(c: Cell, s: State, t: Step): Effect
    requires Enabled(c, s, t)
  {
    var r := s.servers[t.i];
    match t
    case CallStart(i, q, v) => CallStartEffect(r, i, q, v)
    case PassOn(i, q, v) => PassOnEffect(r, i, q, v)
    case ArriveForward(i, q, v) => StartEffect(r, i, q, v)
    case Begin(i, q, v, view) => BeginEffect(c, r, q, v, view)
    case DeliverPrepare(i, q, prop, view) => DeliverPrepareEffect(c, r, i, q, prop, view)
    case AnswerPrepare(i, q, a) => AnswerPrepareEffect(r, s.proposers[(i, q)], a)
    case FinishPrepare(i, q) => FinishPrepareEffect(c, r, q, s.proposers[(i, q)])
    case DeliverAccept(i, q, view, v) => DeliverAcceptEffect(r, i, q, view, v)
    case AnswerAccept(i, q, a) => AnswerAcceptEffect(r, s.proposers[(i, q)], a)
    case FinishAccept(i, q) => FinishAcceptEffect(c, r, q, s.proposers[(i, q)])
    case DeliverLearn(i, q, v) => DeliverLearnEffect(r, i, q, v)
    case FinishLearn(i, q) => Sends(r, {}).(proposer := Drop)
    case SendHeartbeat(i, to) => Sends(r, {HeartbeatReq(r.view, Repeat(r.done, to + 1), r.Decided())})
    case DeliverHeartbeat(i, view, done, decided) => DeliverHeartbeatEffect(c, r, view, done, decided)
    case AnswerHeartbeat(i, decided) => Sends(DecideAll(r, decided), {})
    case Detect(i, x) => DetectEffect(r, x)
    case DeliverElect(i, view) => DeliverElectEffect(r, i, view)
    case AnswerElect(i, x, a) => AnswerElectEffect(r, x, s.elections[(i, x)], a)
    case FinishElection(i, x) => FinishElectionEffect(r, i, x, s.elections[(i, x)])
  }

  function SlotOf(t: Step): int {
    match t
    case Begin(_, q, _, _) => q
    case AnswerPrepare(_, q, _) => q
    case FinishPrepare(_, q) => q
    case AnswerAccept(_, q, _) => q
    case FinishAccept(_, q) => q
    case FinishLearn(_, q) => q
    case _ => 0
  }

  ghost function Apply(c: Cell, s: State, t: Step): State
    requires Enabled(c, s, t)
  {
    Commit(s, t.i, SlotOf(t), EffectOf(c, s, t))
  }

  /** Part of a run, with the step taken at each point. */
  ghost predicate Segment(c: Cell, states: seq<State>, steps: seq<Step>) {
    && |states| == |steps| + 1
    && forall k {:trigger steps[k]} :: 0 <= k < |steps| ==>
         Enabled(c, states[k], steps[k]) && states[k + 1] == Apply(c, states[k], steps[k])
  }

  ghost predicate Run(c: Cell, states: seq<State>, steps: seq<Step>) {
    Segment(c, states, steps) && states[0] == Init(c)
  }

  /** No two servers hold different decided values for a slot. */
  ghost predicate Consistent(s: State) {
    forall i: nat, j: nat, q | DecideBoth(s, i, j, q) :: s.servers[i].Decided()[q] == s.servers[j].Decided()[q]
  }

  ghost predicate DecideBoth(s: State, i: nat, j: nat, q: int) {
    && i < |s.servers| && j < |s.servers|
    && q in s.servers[i].Decided() && q in s.servers[j].Decided()
  }

  // ---- Steps that touch no slot ----

  predicate IsIdle(t: Step) {
    t.AnswerPrepare? || t.AnswerAccept? || t.FinishLearn? || t.Detect? || t.DeliverElect? || t.AnswerElect? || t.FinishElection?
  }

  ghost predicate TouchesNoSlot(r: Server, e: Effect) {
    && e.server.slots == r.slots && e.server.proposed == r.proposed
    && (forall m :: m in e.sent ==> m.ElectReq? || m.ElectAns?)
    && forall ev :: ev in e.events ==> !ev.Voted?
  }

  lemma ElectionTouchesNoSlot(r: Server, i: nat, x: nat, e: Election)
    ensures TouchesNoSlot(r, FinishElectionEffect(r, i, x, e))
  {
  }

  lemma ElectTouchesNoSlot(r: Server, i: nat, x: nat, view: nat)
    ensures TouchesNoSlot(r, DeliverElectEffect(r, i, view))
    ensures r.me < r.numServers ==> TouchesNoSlot(r, DetectEffect(r, x))
  {
  }

  lemma IdleTouchesNoSlot(c: Cell, s: State, t: Step)
    requires Enabled(c, s, t) && IsIdle(t)
    ensures TouchesNoSlot(s.servers[t.i], EffectOf(c, s, t))
  {
    var r := s.servers[t.i];
    match t {
      case FinishElection(i, x) => ElectionTouchesNoSlot(r, i, x, s.elections[(i, x)]);
      case DeliverElect(i, view) => ElectTouchesNoSlot(r, i, 0, view);
      case Detect(i, x) => ElectTouchesNoSlot(r, i, x, 0);
      case _ =>
    }
  }
}
