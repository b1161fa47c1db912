/**
 The asynchronous resolver. A step is one region under its mutex, one callback, or one event
 of the environment. Handlers of completions and Stop exclude each other; what such a handler
 still has to do is a list of tasks, and ResolveAsync may run between any two of them.
 */
module DnsResolver {
  import opened Bytes
  import opened DnsNames
  import opened DnsMessages
  import opened DnsTable

  /** What the handler that holds the completion lock does next. */
  datatype Task =
    | Retry(q: Qid, id: u16)                // another UDP attempt under a new id
    | Aaaa(q: Qid, id: u16)                 // the other record type
    | Tcp(q: Qid)                           // fall back to TCP
    | TcpStart(q: Qid)                      // its timer runs: connect
    | Finish(q: Qid, addr: Option<bytes>)   // leave the table and answer

  /** The callbacks that ResolveAsync was given, by number, where each waits, and what each was told. */
  datatype Calls = Calls(next: nat, home: map<nat, Qid>, answers: map<nat, Option<bytes>>, twice: bool)

  datatype StopPc = NotStopping | Collecting | Answering | Unlocked

  /** `firing` are callbacks taken from a finished query and not called yet; `heard` is how queries ended. */
  datatype State = State(t: Table, calls: Calls, tasks: seq<Task>, firing: set<nat>, answer: Option<bytes>,
                         heard: map<Qid, Option<bytes>>,
                         started: bool, starting: bool, stopping: bool, stop: StopPc, udpOpen: bool)

  const INITIAL := State(DnsTable.EMPTY, Calls(0, map[], map[], false), [], {}, None, map[], false, false, false, NotStopping, false)

  // ----- Callbacks

  function Answer(c: Calls, ids: set<nat>, a: Option<bytes>): Calls {
    c.(answers := c.answers + map i | i in ids :: a, twice := c.twice || exists i :: i in ids && i in c.answers)
  }

  /** The next callback is told at once. */
  function AtOnce(s: State, a: Option<bytes>): State {
    s.(calls := Answer(s.calls.(next := s.calls.next + 1), {s.calls.next}, a))
  }

  // ----- ResolveAsync

  function Fresh(d: bytes, id: u16, aaaa: bool, call: nat): Query {
    Query(d, id, TYPE_A, aaaa, false, 0, {call}, None, Tries(0, 0, 0, 0))
  }

  /** A begun attempt that could not be printed or timed has told its callbacks so. */
  function Begin(s: State, q: Qid, timer: Option<TimerId>): State
    requires q in s.t.queries
  {
    if WellFormedDomain(s.t.queries[q].domain) && timer.Some? then s.(t := BeginUdp(s.t, q, timer))
    else
      var u := BeginUdp(s.t, q, timer);
      s.(t := Put(u, q, u.queries[q].(calls := {})), calls := Answer(s.calls, s.t.queries[q].calls, None), heard := s.heard[q := None])
  }

  /** Another callback joins a pending query, up to a limit. */
  function Attach(s: State, d: bytes): State
    requires d in s.t.byDomain && s.t.byDomain[d] in s.t.queries
  {
    var q := s.t.byDomain[d];
    var x := s.t.queries[q];
    if |x.calls| >= MAX_CALLBACKS then AtOnce(s, None)
    else s.(t := Put(s.t, q, x.(calls := x.calls + {s.calls.next})), calls := s.calls.(next := s.calls.next + 1, home := s.calls.home[s.calls.next := q]))
  }

  /** The new query of a domain nobody asks for yet. */
  function Open(s: State, d: bytes, q: Qid, id: u16, aaaa: bool): State {
    s.(t := Register(s.t, q, Fresh(d, id, aaaa, s.calls.next)),
       calls := s.calls.(next := s.calls.next + 1, home := s.calls.home[s.calls.next := q]))
  }

  function Resolve(s: State, d: bytes, q: Qid, id: u16, aaaa: bool, timer: Option<TimerId>): State {
    if s.stopping || !s.started then AtOnce(s, None)
    else if d in s.t.byDomain && s.t.byDomain[d] in s.t.queries then Attach(s, d)
    else if |s.t.byDomain| >= MAX_QUERIES then AtOnce(s, None)
    else Begin(Open(s, d, q, id, aaaa), q, timer)
  }

  // ----- Results

  datatype Source = FromUdp | FromTcp | FromTimer

  /** What a result makes of its query. */
  function Decide(x: Query, q: Qid, r: DnsResult, from: Source): Task {
    if from.FromTimer? && !x.viaTcp then if x.attempts < MAX_UDP_ATTEMPTS then Retry(q, x.txid) else Tcp(q)
    else if !from.FromTcp? && r.truncated then if r.address.Some? then Finish(q, r.address) else Tcp(q)
    else if r.fromNetwork && r.address.None? && x.tryAAAA && x.qtype == TYPE_A && !r.truncated then Aaaa(q, x.txid)
    else Finish(q, r.address)
  }

  /** Unknown ids are ignored, and so are UDP answers once TCP was begun. */
  predicate Ignored(t: Table, id: u16, from: Source) {
    id !in t.byId || t.byId[id] !in t.queries || (from.FromUdp? && t.queries[t.byId[id]].viaTcp)
  }

  function OnQueryResult(s: State, id: u16, r: DnsResult, from: Source): State {
    if Ignored(s.t, id, from) then s
    else
      var q := s.t.byId[id];
      s.(t := CancelTimer(s.t, q), tasks := [Decide(s.t.queries[q], q, r, from)])
  }

  // ----- Tasks

  function DoTcp(s: State, q: Qid, timer: Option<TimerId>): State
    requires q in s.t.queries
  {
    if !WellFormedDomain(s.t.queries[q].domain) then s.(tasks := [Finish(q, None)] + s.tasks)
    else
      s.(t := Arm(Put(s.t, q, TriedTcp(s.t.queries[q])), q, timer),
         tasks := [if timer.Some? then TcpStart(q) else Finish(q, None)] + s.tasks)
  }

  function DoFinish(s: State, q: Qid, a: Option<bytes>): State
    requires q in s.t.queries
  {
    var u := Unregister(CancelTimer(s.t, q), q);
    s.(t := Put(u, q, u.queries[q].(calls := {})), firing := s.t.queries[q].calls, answer := a, heard := s.heard[q := a])
  }

  function ToAaaa(t: Table, q: Qid): Table
    requires q in t.queries
  {
    Put(t, q, t.queries[q].(qtype := TYPE_AAAA, tryAAAA := false, attempts := 0))
  }

  function Perform(s: State, task: Task, id: u16, timer: Option<TimerId>, ok: bool): State
    requires task.q in s.t.queries
  {
    match task
    case Retry(q, was) => if was !in s.t.byId then s else Begin(s.(t := Rekey(s.t, q, id)), q, timer)
    case Aaaa(q, was) => if was !in s.t.byId then s else Begin(s.(t := Rekey(ToAaaa(s.t, q), q, id)), q, timer)
    case Tcp(q) => DoTcp(s, q, timer)
    case TcpStart(q) => if ok then s else s.(tasks := [Finish(q, None)] + s.tasks)
    case Finish(q, a) => DoFinish(s, q, a)
  }

  // ----- Stop

  /** All callbacks of all queries in the index by id. */
  ghost function AllCalls(t: Table): set<nat> {
    set i, c | i in t.byId && t.byId[i] in t.queries && c in t.queries[t.byId[i]].calls :: c
  }

  /** The timers of all those queries, where they can still be cancelled. */
  ghost function OwnTimers(t: Table): set<TimerId> {
    set i | i in t.byId && t.byId[i] in t.queries && t.queries[t.byId[i]].timer.Some? :: t.queries[t.byId[i]].timer.value
  }

  ghost function Emptied(t: Table): Table {
    t.(queries := map q | q in t.queries :: if q in t.byId.Values then t.queries[q].(calls := {}, timer := None) else t.queries[q],
       byId := map[], byDomain := map[],
       timers := map x | x in t.timers && (x !in OwnTimers(t) || t.timers[x].queued) :: t.timers[x])
  }

  ghost function Collect(s: State): State {
    s.(t := Emptied(s.t), firing := AllCalls(s.t), answer := None, stop := Answering,
       heard := s.heard + map q | q in s.t.byId.Values :: None)
  }

  // ----- Steps

  datatype Event =
    | ResolveNow(a: Option<bytes>)          // an early return, or an answer from the cache
    | ResolveE(d: bytes, q: Qid, id: u16, aaaa: bool, timer: Option<TimerId>)
    | ResultE(id: u16, r: DnsResult, tcp: bool)
    | TimerE(x: TimerId)
    | TaskE(id: u16, timer: Option<TimerId>, ok: bool)
    | FireE(c: nat)
    | ReceiveFails(order: seq<Qid>)         // the UDP receive could not be posted again
    | ClaimE(x: TimerId) | DiscardE(x: TimerId)
    | StartE | StartedE(ok: bool)
    | StopE | CollectE | UnlockE | StoppedE

  predicate Idle(s: State) {
    s.tasks == [] && s.firing == {}
  }

  /** The completion lock is free. */
  predicate Unheld(s: State) {
    Idle(s) && !s.stop.Collecting? && !s.stop.Answering?
  }

  predicate NewTimer(t: Table, timer: Option<TimerId>) {
    timer.Some? ==> timer.value !in t.used
  }

  predicate NewId(byId: map<u16, Qid>, id: u16) {
    id != 0 && id !in byId
  }

  /** The queries that the loss of the UDP socket sends to TCP, in the order of the table. */
  ghost predicate AllUdp(t: Table, order: seq<Qid>) {
    && (forall q :: q in order <==> Live(t, q) && !t.queries[q].viaTcp)
    && forall i, j :: 0 <= i < j < |order| ==> order[i] != order[j]
  }

  ghost predicate Enabled(s: State, e: Event) {
    match e
    case ResolveNow(_) => true
    case ResolveE(d, q, id, _, timer) => q !in s.t.queries && q !in s.heard && NewId(s.t.byId, id) && NewTimer(s.t, timer)
    case ResultE(_, r, tcp) => Unheld(s) && (!tcp ==> r.fromNetwork && !s.stopping)
    case TimerE(x) => Unheld(s) && x in s.t.timers && s.t.timers[x].queued
    case TaskE(id, timer, _) =>
      && s.tasks != [] && s.firing == {} && NewTimer(s.t, timer)
      && s.tasks[0].q in s.t.queries && NewId(s.t.byId - {s.t.queries[s.tasks[0].q].txid}, id)
    case FireE(c) => c in s.firing
    case ReceiveFails(order) => Unheld(s) && !s.stopping && s.udpOpen && AllUdp(s.t, order)
    case ClaimE(x) => x in s.t.timers && !s.t.timers[x].queued
    case DiscardE(x) => x in s.t.timers && s.t.timers[x].queued
    case StartE => !s.started && !s.starting && s.stop.NotStopping?
    case StartedE(_) => s.starting
    case StopE => Unheld(s) && !s.starting && s.stop.NotStopping? && s.started
    case CollectE => s.stop.Collecting?
    case UnlockE => s.stop.Answering? && Idle(s)
    case StoppedE => s.stop.Unlocked?
  }

  function Timers(s: State, timers: map<TimerId, Timer>): State {
    s.(t := s.t.(timers := timers))
  }

  ghost function Step(s: State, e: Event): State
    requires Enabled(s, e)
  {
    match e
    case ResolveNow(a) => AtOnce(s, a)
    case ResolveE(d, q, id, aaaa, timer) => Resolve(s, d, q, id, aaaa, timer)
    case ResultE(id, r, tcp) => OnQueryResult(s, id, r, if tcp then FromTcp else FromUdp)
    case TimerE(x) => OnQueryResult(Timers(s, s.t.timers - {x}), s.t.timers[x].txid, INVALID, FromTimer)
    case TaskE(id, timer, ok) => Perform(s.(tasks := s.tasks[1..]), s.tasks[0], id, timer, ok)
    case FireE(c) => s.(firing := s.firing - {c}, calls := Answer(s.calls, {c}, s.answer))
    case ReceiveFails(order) => s.(udpOpen := false, tasks := seq(|order|, i requires 0 <= i < |order| => Tcp(order[i])))
    case ClaimE(x) => Timers(s, s.t.timers[x := s.t.timers[x].(queued := true)])
    case DiscardE(x) => s.(t := s.t.(timers := s.t.timers - {x}, discarded := s.t.discarded + {x}))
    case StartE => s.(started := true, starting := true, stopping := false)
    case StartedE(ok) => s.(starting := false, started := ok, udpOpen := ok)
    case StopE => s.(stopping := true, stop := Collecting)
    case CollectE => Collect(s)
    case UnlockE => s.(stop := Unlocked, udpOpen := false)
    case StoppedE => s.(stop := NotStopping, started := false)
  }
}
