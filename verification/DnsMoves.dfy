/**
 What the resolver does next: who joins a pending query and who is turned away, and which attempt
 follows a result or a timeout.
 */
module DnsMoves {
  import opened Bytes
  import opened DnsNames
  import opened DnsMessages
  import opened DnsTable
  import opened DnsTableProofs
  import opened DnsResolver
  import opened DnsResolverProofs
  import opened DnsResolverTheorems
  import opened DnsAnswers
  import opened DnsBudget

  // ----- Asking

  /** The query that is pending for this domain holds all the callbacks it may. */
  predicate Full(t: Table, d: bytes) {
    d in t.byDomain && t.byDomain[d] in t.queries && |t.queries[t.byDomain[d]].calls| >= 256
  }

  /** A new query that cannot be registered, printed or timed. */
  predicate Unbegun(t: Table, d: bytes, timer: Option<TimerId>) {
    d !in t.byDomain && (|t.byDomain| >= 4096 || !WellFormedDomain(d) || timer.None?)
  }

  /** The callback waits with the query that is pending for this domain. */
  ghost predicate Joined(s: State, d: bytes, i: nat) {
    && d in s.t.byDomain && Live(s.t, s.t.byDomain[d])
    && i in s.calls.home && s.calls.home[i] == s.t.byDomain[d] && i in s.t.queries[s.t.byDomain[d]].calls
  }

  /** A query in its first attempt: over UDP, for an IPv4 address. */
  predicate First(x: Query, d: bytes, id: u16, aaaa: bool, timer: Option<TimerId>) {
    && x.domain == d && x.txid == id && x.qtype == 1 && x.tryAAAA == aaaa && !x.viaTcp && x.attempts == 1
    && x.timer == timer
  }

  lemma AttachJoins(s: State, d: bytes)
    requires Inv(s) && d in s.t.byDomain && !Full(s.t, d)
    ensures s.t.byDomain[d] in s.t.queries
    ensures var t := Attach(s, d);
            && Joined(t, d, s.calls.next) && t.t.byDomain == s.t.byDomain
            && t.calls.answers == s.calls.answers && t.calls.next == s.calls.next + 1
  {
    hide Inv, Orderly, Placed;
    InvParts(s);
    DomainLive(s.t, s.tasks, d);
  }

  lemma RegisterLeads(t: Table, q: Qid, x: Query)
    ensures var u := Register(t, q, x); x.domain in u.byDomain && u.byDomain[x.domain] == q && q in u.queries && u.queries[q] == x
  {
  }

  lemma BeginKeepsDomain(t: Table, q: Qid, timer: Option<TimerId>)
    requires q in t.queries && WellFormedDomain(t.queries[q].domain) && timer.Some?
    ensures BeginUdp(t, q, timer).byDomain == t.byDomain
  {
    hide WellFormedDomain;
  }

  lemma OpenJoins(s: State, d: bytes, q: Qid, id: u16, aaaa: bool, timer: Option<TimerId>)
    requires Inv(s) && q !in s.t.queries && NewId(s.t.byId, id) && NewTimer(s.t, timer) && d !in s.t.byDomain && !Unbegun(s.t, d, timer)
    ensures var t := Begin(Open(s, d, q, id, aaaa), q, timer);
            && Joined(t, d, s.calls.next) && t.calls.home[s.calls.next] == q && First(t.t.queries[q], d, id, aaaa, timer)
            && t.calls.answers == s.calls.answers && t.calls.next == s.calls.next + 1
  {
    hide Inv, Orderly, Placed, Indexed, Clock, Others, Live, Waits, Named, WellFormedDomain, BeginUdp, Register, Watched, NewId;
    InvParts(s);
    var x := Fresh(d, id, aaaa, s.calls.next);
    OpenTable(s.t, s.tasks, q, x);
    RegisterLeads(s.t, q, x);
    var o := Open(s, d, q, id, aaaa);
    RegisterUsed(s.t, q, x);
    BeginOthers(o.t, q, timer);
    BeginKeepsDomain(o.t, q, timer);
    var u := BeginUdp(o.t, q, timer);
    assert u.queries[q] == TriedUdp(x).(timer := timer);
  }

  lemma RegisterUsed(t: Table, q: Qid, x: Query)
    ensures Register(t, q, x).used == t.used
  {
  }

  lemma UnbegunTold(s: State, d: bytes, q: Qid, id: u16, aaaa: bool, timer: Option<TimerId>)
    requires !WellFormedDomain(d) || timer.None?
    ensures var t := Begin(Open(s, d, q, id, aaaa), q, timer);
            && s.calls.next in t.calls.answers && t.calls.answers[s.calls.next] == None && t.calls.next == s.calls.next + 1
  {
    hide WellFormedDomain, BeginUdp;
  }

  lemma NextUnknown(s: State)
    requires Inv(s)
    ensures s.calls.next !in s.calls.answers
  {
    hide Sound, Watch, Queue, Life;
  }

  /**
   Asking a started resolver: the callback is told at once that there is no address exactly if the
   pending query of its domain holds 256 callbacks, or there is none and it could not be registered,
   printed or timed. Otherwise it joins the pending query, or the new one, which has begun.
   */
  lemma Asking(s: State, e: Event)
    requires Inv(s) && Enabled(s, e) && e.ResolveE?
    ensures
      var t, i, d := Step(s, e), s.calls.next, e.d;
      var away := !s.started || s.stopping || Full(s.t, d) || Unbegun(s.t, d, e.timer);
      && i !in s.calls.answers && t.calls.next == i + 1
      && (i in t.calls.answers <==> away)
      && (away ==> t.calls.answers[i] == None)
      && (!away ==> Joined(t, d, i))
      && (!away && d in s.t.byDomain ==> t.calls.home[i] == s.t.byDomain[d])
      && (!away && d !in s.t.byDomain ==> t.calls.home[i] == e.q && First(t.t.queries[e.q], d, e.id, e.aaaa, e.timer))
  {
    hide Inv, Attach, Begin, Live, WellFormedDomain, NewId, NewTimer, Placed, Orderly;
    NextUnknown(s);
    InvParts(s);
    var d := e.d;
    if s.started && !s.stopping {
      if d in s.t.byDomain {
        DomainKnown(s, d);
        if Full(s.t, d) {
          FullTurnsAway(s, d);
        } else {
          AttachJoins(s, d);
        }
      } else if |s.t.byDomain| < 4096 {
        if WellFormedDomain(d) && e.timer.Some? {
          OpenJoins(s, d, e.q, e.id, e.aaaa, e.timer);
        } else {
          UnbegunTold(s, d, e.q, e.id, e.aaaa, e.timer);
        }
      }
    }
  }

  lemma DomainKnown(s: State, d: bytes)
    requires Inv(s) && d in s.t.byDomain
    ensures s.t.byDomain[d] in s.t.queries
  {
    hide Inv, Orderly, Placed, Live;
    InvParts(s);
    DomainLive(s.t, s.tasks, d);
    LiveKnown(s.t);
  }

  lemma FullTurnsAway(s: State, d: bytes)
    requires Full(s.t, d)
    ensures Attach(s, d) == AtOnce(s, None)
  {
    hide Answer;
  }

  // ----- And being told

  lemma ResolveHome(s: State, d: bytes, q: Qid, id: u16, aaaa: bool, timer: Option<TimerId>, i: nat)
    requires i in s.calls.home && i != s.calls.next
    ensures var u := Resolve(s, d, q, id, aaaa, timer); i in u.calls.home && u.calls.home[i] == s.calls.home[i]
  {
    hide Begin;
    BeginHome(Open(s, d, q, id, aaaa), q, timer);
  }

  lemma BeginHome(s: State, q: Qid, timer: Option<TimerId>)
    requires q in s.t.queries
    ensures Begin(s, q, timer).calls.home == s.calls.home
  {
    hide BeginUdp, WellFormedDomain;
  }

  lemma PerformHome(s: State, k: Task, id: u16, timer: Option<TimerId>, ok: bool)
    requires k.q in s.t.queries
    ensures Perform(s, k, id, timer, ok).calls.home == s.calls.home
  {
    hide BeginUdp, WellFormedDomain, Rekey, ToAaaa, CancelTimer, Unregister, Arm;
    RekeyKeeps(s.t, k.q, id);
  }

  lemma AnswerHome(c: Calls, ids: set<nat>, a: Option<bytes>)
    ensures Answer(c, ids, a).home == c.home
  {
  }

  lemma ResultCalls(s: State, id: u16, r: DnsResult, from: Source)
    ensures OnQueryResult(s, id, r, from).calls == s.calls
  {
    hide Decide, CancelTimer;
  }

  /** A callback stays with the query it joined. */
  lemma StepHome(s: State, e: Event, i: nat)
    requires Enabled(s, e) && i in s.calls.home && i < s.calls.next
    ensures i in Step(s, e).calls.home && Step(s, e).calls.home[i] == s.calls.home[i]
  {
    hide Resolve, Perform, AllUdp, NewId, NewTimer, OnQueryResult, Collect, Answer;
    CollectCallsSame(s);
    match e
    case ResolveNow(a) => AnswerHome(s.calls.(next := s.calls.next + 1), {s.calls.next}, a);
    case ResolveE(d, q, id, aaaa, timer) => ResolveHome(s, d, q, id, aaaa, timer, i);
    case ResultE(id, r, tcp) => ResultCalls(s, id, r, if tcp then FromTcp else FromUdp);
    case TimerE(x) => ResultCalls(Timers(s, s.t.timers - {x}), s.t.timers[x].txid, INVALID, FromTimer);
    case FireE(c) => AnswerHome(s.calls, {c}, s.answer);
    case TaskE(id, timer, ok) => PerformHome(s.(tasks := s.tasks[1..]), s.tasks[0], id, timer, ok);
    case _ =>
  }

  lemma {:induction false} HomeStays(run: seq<State>, es: seq<Event>, m: nat, n: nat, i: nat)
    requires IsRun(run, es) && m <= n < |run| && i in run[m].calls.home
    ensures i in run[n].calls.home && run[n].calls.home[i] == run[m].calls.home[i]
    decreases n
  {
    hide Step, Enabled;
    if m < n {
      HomeStays(run, es, m, n - 1, i);
      RunTold(run, es, n - 1);
      HomeKnown(run[n - 1], i);
      StepHome(run[n - 1], es[n - 1], i);
    }
  }

  lemma HomeKnown(s: State, i: nat)
    requires Told(s) && i in s.calls.home
    ensures i < s.calls.next
  {
    hide Ended;
  }

  /** Where a callback is, by how its query ended. */
  ghost predicate Placement(s: State, q: Qid, i: nat) {
    && i in s.calls.home && s.calls.home[i] == q
    && (q !in s.heard ==> i !in s.calls.answers && Live(s.t, q) && i in s.t.queries[q].calls)
    && (q in s.heard && i in s.calls.answers ==> s.calls.answers[i] == s.heard[q])
    && (q in s.heard && i !in s.calls.answers ==> i in s.firing && s.answer == s.heard[q])
  }

  lemma HomePlacement(s: State, i: nat)
    requires Inv(s) && Told(s) && i in s.calls.home
    ensures Placement(s, s.calls.home[i], i)
  {
    hide Sound, Watch, Queue, Life;
    assert Agrees(s.calls, s.heard, i);
    assert Somewhere(s.t, s.calls, s.firing, i);
    assert i in s.firing ==> Fires(s.calls, s.heard, s.answer, i);
  }

  /**
   Over every run: a callback that is not turned away joins the query of its domain, waits with it
   while it is pending, and is told how exactly that query ended.
   */
  lemma JoinedIsTold(run: seq<State>, es: seq<Event>, m: nat, n: nat)
    requires IsRun(run, es) && m < n < |run| && es[m].ResolveE? && run[m].started && !run[m].stopping
    requires !Full(run[m].t, es[m].d) && !Unbegun(run[m].t, es[m].d, es[m].timer)
    ensures es[m].d in run[m + 1].t.byDomain
    ensures Placement(run[n], run[m + 1].t.byDomain[es[m].d], run[m].calls.next)
    ensures es[m].d in run[m].t.byDomain ==> run[m + 1].t.byDomain[es[m].d] == run[m].t.byDomain[es[m].d]
  {
    hide Inv, Told, Step, Enabled, Full, Unbegun, First, Placement, Live;
    var i := run[m].calls.next;
    EveryRun(run, es, m);
    Asking(run[m], es[m]);
    HomeStays(run, es, m + 1, n, i);
    EveryRun(run, es, n);
    RunTold(run, es, n);
    HomePlacement(run[n], i);
  }

  // ----- What a result or a timeout leads to

  /** The rest of a query when its callbacks and its timer are left aside. */
  function Core(x: Query): Query {
    x.(calls := {}, timer := None)
  }

  lemma TimeoutMoves(s: State, id: u16)
    requires id in s.t.byId && s.t.byId[id] in s.t.queries
    ensures var q := s.t.byId[id];
            var x := s.t.queries[q];
            var u := OnQueryResult(s, id, INVALID, FromTimer);
            && q in u.t.queries && Core(u.t.queries[q]) == Core(x)
            && (!x.viaTcp && x.attempts < 3 ==> u.tasks == [Retry(q, x.txid)])
            && (!x.viaTcp && x.attempts >= 3 ==> u.tasks == [Tcp(q)])
            && (x.viaTcp ==> u.tasks == [Finish(q, None)])
  {
  }

  lemma ResultMoves(s: State, id: u16, r: DnsResult, tcp: bool)
    requires id in s.t.byId && s.t.byId[id] in s.t.queries && (s.t.queries[s.t.byId[id]].viaTcp ==> tcp) && (!tcp ==> r.fromNetwork)
    ensures var q := s.t.byId[id];
            var x := s.t.queries[q];
            var u := OnQueryResult(s, id, r, if tcp then FromTcp else FromUdp);
            && q in u.t.queries && Core(u.t.queries[q]) == Core(x)
            && (r.address.Some? ==> u.tasks == [Finish(q, r.address)])
            && (r.address.None? && r.truncated && !tcp ==> u.tasks == [Tcp(q)])
            && (r.address.None? && (r.truncated || !r.fromNetwork) && tcp ==> u.tasks == [Finish(q, None)])
            && (r.address.None? && !r.truncated && r.fromNetwork ==>
                  u.tasks == [if x.tryAAAA && x.qtype == 1 then Aaaa(q, x.txid) else Finish(q, None)])
  {
  }

  /** The handler at work keeps its task, and the query of that task, until it goes on. */
  lemma TasksHold(s: State, e: Event)
    requires Inv(s) && Enabled(s, e) && s.tasks != [] && !e.TaskE?
    ensures Step(s, e).tasks == s.tasks
  {
    hide Sound, Watch, Queue, Placed, Resolve, OnQueryResult, Collect, Answer, AllUdp, NewId, NewTimer;
    match e
    case ResolveE(d, q, id, aaaa, timer) => ResolveHeard(s, d, q, id, aaaa, timer);
    case _ =>
  }

  lemma ResolveCore(s: State, d: bytes, p: Qid, id: u16, aaaa: bool, timer: Option<TimerId>, q: Qid)
    requires Orderly(s.t, s.tasks) && p !in s.t.queries && NewId(s.t.byId, id) && NewTimer(s.t, timer) && Live(s.t, q)
    ensures var u := Resolve(s, d, p, id, aaaa, timer).t; Live(u, q) && Core(u.queries[q]) == Core(s.t.queries[q])
  {
    hide Orderly, Begin, Open, Answer, Attach, Others, WellFormedDomain;
    if !s.stopping && s.started && d in s.t.byDomain {
      DomainLive(s.t, s.tasks, d);
      AttachCore(s, d, q);
    } else if !s.stopping && s.started && |s.t.byDomain| < MAX_QUERIES {
      OpenCore(s, d, p, id, aaaa, timer, q);
    }
  }

  lemma AttachCore(s: State, d: bytes, q: Qid)
    requires d in s.t.byDomain && s.t.byDomain[d] in s.t.queries && Live(s.t, q)
    ensures var u := Attach(s, d).t; Live(u, q) && Core(u.queries[q]) == Core(s.t.queries[q])
  {
    AttachLive(s, d, q);
    LiveKnown(s.t);
    LiveKnown(Attach(s, d).t);
    hide Answer, Live;
  }

  lemma OpenCore(s: State, d: bytes, p: Qid, id: u16, aaaa: bool, timer: Option<TimerId>, q: Qid)
    requires Orderly(s.t, s.tasks) && p !in s.t.queries && NewId(s.t.byId, id) && NewTimer(s.t, timer)
    requires d !in s.t.byDomain && |s.t.byDomain| < MAX_QUERIES && Live(s.t, q)
    ensures var u := Begin(Open(s, d, p, id, aaaa), p, timer).t; Live(u, q) && u.queries[q] == s.t.queries[q]
  {
    LiveKnown(s.t);
    hide Orderly, Begin, Others, Named, Indexed, Clock, Waits, Left, Live;
    var x := Fresh(d, id, aaaa, s.calls.next);
    var o := Open(s, d, p, id, aaaa);
    OpenTable(s.t, s.tasks, p, x);
    var u := Begin(o, p, timer).t;
    BeginOthersToo(o, p, timer);
    OthersAll(s.t, o.t, u, p);
    OtherSame(s.t, u, p, q);
  }

  lemma OtherSame(t: Table, u: Table, p: Qid, q: Qid)
    requires Others(t, u, p) && q != p && Live(t, q)
    ensures Live(u, q) && u.queries[q] == t.queries[q]
  {
    hide Watched;
  }

  lemma CoreHolds(s: State, e: Event, q: Qid)
    requires Inv(s) && Enabled(s, e) && s.tasks != [] && !e.TaskE? && Live(s.t, q)
    ensures Live(Step(s, e).t, q) && Core(Step(s, e).t.queries[q]) == Core(s.t.queries[q])
  {
    assert s.stop.Collecting? ==> Idle(s);
    InvParts(s);
    hide Inv, Orderly, Placed, Resolve, OnQueryResult, Collect, Answer, AllUdp, NewId, NewTimer;
    match e
    case ResolveE(d, p, id, aaaa, timer) => ResolveCore(s, d, p, id, aaaa, timer, q);
    case _ =>
  }

  lemma {:induction false} HandlerHolds(run: seq<State>, es: seq<Event>, m: nat, n: nat, k: Task)
    requires IsRun(run, es) && m <= n < |run| && run[m].tasks == [k] && Live(run[m].t, k.q)
    requires forall j :: m <= j < n ==> !es[j].TaskE?
    ensures run[n].tasks == [k] && Live(run[n].t, k.q) && Core(run[n].t.queries[k.q]) == Core(run[m].t.queries[k.q])
    decreases n
  {
    hide Inv, Step, Enabled, Live, Core;
    if m < n {
      HandlerHolds(run, es, m, n - 1, k);
      EveryRun(run, es, n - 1);
      TasksHold(run[n - 1], es[n - 1]);
      CoreHolds(run[n - 1], es[n - 1], k.q);
    }
  }

  // ----- And what it then does

  /** Another attempt over UDP for the same record type, under a new id and a new timer. */
  ghost predicate TriesAgain(x: Query, t: Table, q: Qid, id: u16, timer: Option<TimerId>) {
    && Live(t, q)
    && var y := t.queries[q];
       && y.attempts == x.attempts + 1 && !y.viaTcp && y.qtype == x.qtype && y.tryAAAA == x.tryAAAA
       && y.domain == x.domain && y.txid == id && y.timer == timer
  }

  /** The first attempt for an IPv6 address. */
  ghost predicate TriesIpv6(x: Query, t: Table, q: Qid, id: u16, timer: Option<TimerId>) {
    && Live(t, q)
    && var y := t.queries[q];
       && y.attempts == 1 && !y.viaTcp && y.qtype == 28 && !y.tryAAAA && y.domain == x.domain && y.txid == id && y.timer == timer
  }

  /** The attempt over TCP for the same record type. */
  ghost predicate TriesTcp(x: Query, t: Table, q: Qid, timer: Option<TimerId>) {
    && Live(t, q)
    && var y := t.queries[q];
       && y.viaTcp && y.qtype == x.qtype && y.tryAAAA == x.tryAAAA && y.attempts == x.attempts && y.domain == x.domain
       && y.txid == x.txid && y.timer == timer
  }

  lemma BeginIs(s: State, q: Qid, timer: Option<TimerId>)
    requires Indexed(s.t) && Clock(s.t) && Live(s.t, q) && NewTimer(s.t, timer) && timer.Some? && WellFormedDomain(s.t.queries[q].domain)
    ensures var u := Begin(s, q, timer).t; Live(u, q) && u.queries[q] == TriedUdp(s.t.queries[q]).(timer := timer)
  {
    hide Indexed, Clock, Others, Watched, WellFormedDomain, BeginUdp, TriedUdp, Live;
    LiveKnown(s.t);
    BeginOthers(s.t, q, timer);
  }

  lemma RetryDoes(s: State, q: Qid, id: u16, timer: Option<TimerId>)
    requires Indexed(s.t) && Clock(s.t) && Live(s.t, q) && NewId(s.t.byId - {s.t.queries[q].txid}, id) && NewTimer(s.t, timer)
    requires timer.Some? && WellFormedDomain(s.t.queries[q].domain)
    ensures q in Rekey(s.t, q, id).queries
    ensures TriesAgain(s.t.queries[q], Begin(s.(t := Rekey(s.t, q, id)), q, timer).t, q, id, timer)
  {
    hide Indexed, Clock, Others, WellFormedDomain, Rekey, Begin, Live;
    LiveKnown(s.t);
    RekeyOthers(s.t, q, id);
    LiveKnown(Rekey(s.t, q, id));
    BeginIs(s.(t := Rekey(s.t, q, id)), q, timer);
  }

  lemma AaaaDoes(s: State, q: Qid, id: u16, timer: Option<TimerId>)
    requires Indexed(s.t) && Clock(s.t) && Live(s.t, q) && NewId(s.t.byId - {s.t.queries[q].txid}, id) && NewTimer(s.t, timer)
    requires timer.Some? && WellFormedDomain(s.t.queries[q].domain)
    ensures q in ToAaaa(s.t, q).queries && q in Rekey(ToAaaa(s.t, q), q, id).queries
    ensures TriesIpv6(s.t.queries[q], Begin(s.(t := Rekey(ToAaaa(s.t, q), q, id)), q, timer).t, q, id, timer)
  {
    hide Indexed, Clock, Others, WellFormedDomain, Rekey, Begin, Live;
    LiveKnown(s.t);
    var v := ToAaaa(s.t, q);
    PutOthers(s.t, q, v.queries[q]);
    RekeyOthers(v, q, id);
    LiveKnown(Rekey(v, q, id));
    BeginIs(s.(t := Rekey(v, q, id)), q, timer);
  }

  lemma TcpDoes(s: State, q: Qid, timer: Option<TimerId>)
    requires Indexed(s.t) && Clock(s.t) && Live(s.t, q) && NewTimer(s.t, timer) && timer.Some? && WellFormedDomain(s.t.queries[q].domain)
    ensures var u := DoTcp(s, q, timer); TriesTcp(s.t.queries[q], u.t, q, timer) && u.tasks == [TcpStart(q)] + s.tasks
  {
    hide Indexed, Clock, Others, Arm, WellFormedDomain, Live;
    LiveKnown(s.t);
    var v := Put(s.t, q, TriedTcp(s.t.queries[q]));
    PutOthers(s.t, q, v.queries[q]);
    ArmOthers(v, q, timer);
  }

  lemma FinishDoes(s: State, q: Qid, a: Option<bytes>)
    requires q in s.t.queries
    ensures var u := DoFinish(s, q, a); q in u.heard && u.heard[q] == a && u.firing == s.t.queries[q].calls && u.answer == a
  {
    hide CancelTimer, Unregister;
  }

  /** What becomes of a query when its task is performed, with a timer where one is asked for. */
  ghost predicate Does(k: Task, x: Query, u: State, e: Event)
    requires e.TaskE?
  {
    match k
    case Retry(q, _) => TriesAgain(x, u.t, q, e.id, e.timer)
    case Aaaa(q, _) => TriesIpv6(x, u.t, q, e.id, e.timer)
    case Tcp(q) => TriesTcp(x, u.t, q, e.timer) && u.tasks == [TcpStart(q)]
    case TcpStart(q) => if e.ok then u.tasks == [] else u.tasks == [Finish(q, None)]
    case Finish(q, a) => q in u.heard && u.heard[q] == a && u.answer == a && u.firing == x.calls
  }

  lemma TaskDoes(s: State, e: Event, k: Task)
    requires Inv(s) && Enabled(s, e) && e.TaskE? && s.tasks == [k] && (k.Retry? || k.Aaaa? || k.Tcp? ==> e.timer.Some?)
    ensures k.q in s.t.queries && Does(k, s.t.queries[k.q], Step(s, e), e)
  {
    HeadPrints(s);
    InvParts(s);
    HeadNearly(s.t, s.tasks);
    TaskFacts(s.t, k);
    NearlySound(s.t, s.tasks[1..], k.q);
    assert s.tasks[1..] == [];
    var r := s.(tasks := s.tasks[1..]);
    hide Inv, Orderly, Placed, Nearly, TaskOk, Fit, Begin, DoTcp, DoFinish, Rekey, ToAaaa, Live, WellFormedDomain, NewId, NewTimer, Indexed, Clock;
    hide TriesAgain, TriesIpv6, TriesTcp;
    match k
    case Retry(q, was) => RetryDoes(r, q, e.id, e.timer);
    case Aaaa(q, was) => AaaaDoes(r, q, e.id, e.timer);
    case Tcp(q) => TcpDoes(r, q, e.timer);
    case TcpStart(q) =>
    case Finish(q, a) => FinishDoes(r, q, a);
  }

  // ----- Over runs

  /** The task performed next, with only other callers' steps in between. */
  ghost predicate NextTask(es: seq<Event>, m: nat, n: nat) {
    m < n < |es| && es[n].TaskE? && forall j :: m < j < n ==> !es[j].TaskE?
  }

  lemma SameCore(k: Task, x: Query, y: Query, u: State, e: Event)
    requires e.TaskE? && Does(k, x, u, e) && Core(x) == Core(y)
    ensures Does(k, y.(calls := x.calls), u, e)
  {
    assert x == x.(calls := x.calls);
    hide Live;
  }

  /** Whatever task a result leaves is the next one performed, on the query as the result found it. */
  lemma LeadsTo(run: seq<State>, es: seq<Event>, m: nat, n: nat, k: Task)
    requires IsRun(run, es) && NextTask(es, m, n) && run[m + 1].tasks == [k] && Live(run[m].t, k.q) && Live(run[m + 1].t, k.q)
    requires Core(run[m + 1].t.queries[k.q]) == Core(run[m].t.queries[k.q])
    requires k.Retry? || k.Aaaa? || k.Tcp? ==> es[n].timer.Some?
    ensures k.q in run[n].t.queries
    ensures Does(k, run[m].t.queries[k.q].(calls := run[n].t.queries[k.q].calls), run[n + 1], es[n])
  {
    hide Inv, Step, Enabled, Does, Core, Live;
    LiveKnown(run[m].t);
    LiveKnown(run[m + 1].t);
    HandlerHolds(run, es, m + 1, n, k);
    EveryRun(run, es, n);
    TaskDoes(run[n], es[n], k);
    SameCore(k, run[n].t.queries[k.q], run[m].t.queries[k.q], run[n + 1], es[n]);
  }

  lemma NamedLive(s: State, id: u16, q: Qid)
    requires Inv(s) && Names(s.t, id, q)
    ensures Live(s.t, q) && s.t.queries[q].txid == id != 0
  {
    hide Clock, Watch, Queue, Placed, Life, Fit;
    assert IdOk(s.t, id);
  }

  /**
   Over every run: the first and the second UDP timeout of a record type begin another UDP attempt,
   the third goes over to TCP, and a timeout there ends the query without an address.
   */
  lemma TimeoutLeads(run: seq<State>, es: seq<Event>, m: nat, n: nat, q: Qid)
    requires IsRun(run, es) && NextTask(es, m, n) && es[m].TimerE? && es[m].x in run[m].t.timers
    requires Names(run[m].t, run[m].t.timers[es[m].x].txid, q)
    ensures
      var x, u, e := run[m].t.queries[q], run[n + 1], es[n];
      && (!x.viaTcp && x.attempts < 3 && e.timer.Some? ==> TriesAgain(x, u.t, q, e.id, e.timer))
      && (!x.viaTcp && x.attempts >= 3 && e.timer.Some? ==> TriesTcp(x, u.t, q, e.timer) && u.tasks == [TcpStart(q)])
      && (x.viaTcp ==> q in u.heard && u.heard[q] == None)
  {
    var s, x := run[m], run[m].t.queries[q];
    var id := s.t.timers[es[m].x].txid;
    EveryRun(run, es, m);
    NamedLive(s, id, q);
    var r := Timers(s, s.t.timers - {es[m].x});
    assert run[m + 1] == OnQueryResult(r, id, INVALID, FromTimer);
    TimeoutMoves(r, id);
    ResultLive(r, id, INVALID, FromTimer, q);
    var k := if x.viaTcp then Finish(q, None) else if x.attempts < 3 then Retry(q, x.txid) else Tcp(q);
    assert run[m + 1].tasks == [k];
    hide IsRun, OnQueryResult, Inv, Live, TriesAgain, TriesTcp;
    if x.viaTcp || es[n].timer.Some? {
      LeadsTo(run, es, m, n, k);
      CallsAside(x, run[n].t.queries[q].calls, run[n + 1].t, q, es[n]);
    }
  }

  lemma CallsAside(x: Query, calls: set<nat>, t: Table, q: Qid, e: Event)
    requires e.TaskE?
    ensures TriesAgain(x.(calls := calls), t, q, e.id, e.timer) == TriesAgain(x, t, q, e.id, e.timer)
    ensures TriesTcp(x.(calls := calls), t, q, e.timer) == TriesTcp(x, t, q, e.timer)
    ensures TriesIpv6(x.(calls := calls), t, q, e.id, e.timer) == TriesIpv6(x, t, q, e.id, e.timer)
  {
    hide Live;
  }

  /**
   Over every run: an address ends the query; a truncated UDP answer without one goes over to TCP;
   the server's word that there is no such record begins with the other record type if that is left;
   and anything else ends the query without an address.
   */
  lemma ResultLeads(run: seq<State>, es: seq<Event>, m: nat, n: nat, q: Qid)
    requires IsRun(run, es) && NextTask(es, m, n) && es[m].ResultE? && Names(run[m].t, es[m].id, q)
    requires run[m].t.queries[q].viaTcp ==> es[m].tcp
    ensures
      var x, r, u, e := run[m].t.queries[q], es[m].r, run[n + 1], es[n];
      && (r.address.Some? ==> q in u.heard && u.heard[q] == r.address)
      && (r.address.None? && r.truncated && !es[m].tcp && e.timer.Some? ==> TriesTcp(x, u.t, q, e.timer) && u.tasks == [TcpStart(q)])
      && (r.address.None? && !r.truncated && r.fromNetwork && x.tryAAAA && x.qtype == 1 && e.timer.Some? ==> TriesIpv6(x, u.t, q, e.id, e.timer))
      && (r.address.None? && !r.truncated && r.fromNetwork && !(x.tryAAAA && x.qtype == 1) ==> q in u.heard && u.heard[q] == None)
      && (r.address.None? && (r.truncated || !r.fromNetwork) && es[m].tcp ==> q in u.heard && u.heard[q] == None)
  {
    var s, x, r := run[m], run[m].t.queries[q], es[m].r;
    EveryRun(run, es, m);
    NamedLive(s, es[m].id, q);
    var from := if es[m].tcp then FromTcp else FromUdp;
    assert Enabled(s, es[m]) && run[m + 1] == OnQueryResult(s, es[m].id, r, from);
    ResultMoves(s, es[m].id, r, es[m].tcp);
    ResultLive(s, es[m].id, r, from, q);
    var k := if r.address.Some? then Finish(q, r.address)
             else if r.truncated && !es[m].tcp then Tcp(q)
             else if !r.truncated && r.fromNetwork && x.tryAAAA && x.qtype == 1 then Aaaa(q, x.txid)
             else Finish(q, None);
    assert run[m + 1].tasks == [k];
    hide IsRun, OnQueryResult, Inv, Live, TriesAgain, TriesTcp, TriesIpv6;
    if k.Finish? || es[n].timer.Some? {
      LeadsTo(run, es, m, n, k);
      CallsAside(x, run[n].t.queries[q].calls, run[n + 1].t, q, es[n]);
    }
  }

  // ----- From an answer to the callback

  lemma FinishStep(s: State, q: Qid, a: Option<bytes>, id: u16)
    requires s.tasks == [Finish(q, a)] && s.firing == {} && q in s.t.queries && NewId(s.t.byId - {s.t.queries[q].txid}, id)
    ensures Enabled(s, TaskE(id, None, true))
    ensures var t := Step(s, TaskE(id, None, true)); t.firing == s.t.queries[q].calls && t.answer == a && t.calls == s.calls
  {
    hide CancelTimer, Unregister, NewId;
  }

  /**
   In every reachable state in which no handler is at work: an answer with an address, for a pending
   query under its id, can be handled to its end, and each callback of that query is told the address.
   */
  lemma AnswerArrives(s: State, id: u16, r: DnsResult, tcp: bool, q: Qid, i: nat)
    requires Inv(s) && Unheld(s) && !s.stopping && Names(s.t, id, q) && r.address.Some? && r.fromNetwork
    requires (s.t.queries[q].viaTcp ==> tcp) && i in s.t.queries[q].calls
    ensures Enabled(s, ResultE(id, r, tcp))
    ensures var t := Step(s, ResultE(id, r, tcp));
            && Enabled(t, TaskE(id, None, true))
            && var u := Step(t, TaskE(id, None, true));
               && Enabled(u, FireE(i))
               && var w := Step(u, FireE(i));
                  i in w.calls.answers && w.calls.answers[i] == r.address
  {
    hide Step, Enabled, OnQueryResult, Inv, Live, NewId;
    NamedLive(s, id, q);
    ResultStep(s, id, r, tcp);
    ResultMoves(s, id, r, tcp);
    ResultTable(s, id, r, tcp);
    var t := Step(s, ResultE(id, r, tcp));
    FinishStep(t, q, r.address, id);
    FireStep(Step(t, TaskE(id, None, true)), i);
  }

  lemma ResultStep(s: State, id: u16, r: DnsResult, tcp: bool)
    requires Unheld(s) && !s.stopping && r.fromNetwork
    ensures Enabled(s, ResultE(id, r, tcp))
    ensures Step(s, ResultE(id, r, tcp)) == OnQueryResult(s, id, r, if tcp then FromTcp else FromUdp)
  {
    hide OnQueryResult;
  }

  lemma FireStep(s: State, i: nat)
    requires i in s.firing
    ensures Enabled(s, FireE(i))
    ensures var w := Step(s, FireE(i)); i in w.calls.answers && w.calls.answers[i] == s.answer
  {
  }

  lemma ResultTable(s: State, id: u16, r: DnsResult, tcp: bool)
    requires id in s.t.byId && s.t.byId[id] in s.t.queries && s.t.queries[s.t.byId[id]].txid == id && id != 0
    ensures var t := OnQueryResult(s, id, r, if tcp then FromTcp else FromUdp);
            && t.t.byId == s.t.byId && t.firing == s.firing && s.t.byId[id] in t.t.queries
            && t.t.queries[s.t.byId[id]].calls == s.t.queries[s.t.byId[id]].calls
            && NewId(t.t.byId - {t.t.queries[s.t.byId[id]].txid}, id)
  {
    hide Decide;
  }

  /** A result under an unknown id, or over UDP once TCP was begun, changes nothing. */
  lemma StrayIgnored(s: State, e: Event)
    requires Enabled(s, e) && e.ResultE?
    requires e.id !in s.t.byId || (!e.tcp && s.t.byId[e.id] in s.t.queries && s.t.queries[s.t.byId[e.id]].viaTcp)
    ensures Step(s, e) == s
  {
  }

  /** Losing the UDP socket sends every query that still relies on it over to TCP, once. */
  lemma LossGoesToTcp(s: State, e: Event)
    requires Enabled(s, e) && e.ReceiveFails?
    ensures var t := Step(s, e);
            && !t.udpOpen && t.t == s.t && t.calls == s.calls
            && (forall q: Qid :: Tcp(q) in t.tasks <==> Live(s.t, q) && !s.t.queries[q].viaTcp)
            && (forall k :: k in t.tasks ==> k.Tcp?)
            && (forall i, j :: 0 <= i < j < |t.tasks| ==> t.tasks[i] != t.tasks[j])
  {
    var t := Step(s, e);
    forall q: Qid ensures Tcp(q) in t.tasks <==> Live(s.t, q) && !s.t.queries[q].viaTcp {
      if q in e.order {
        var i :| 0 <= i < |e.order| && e.order[i] == q;
        assert t.tasks[i] == Tcp(q);
      }
    }
  }

  // ----- A whole lookup

  /** The resolver has been started. */
  const STARTED := INITIAL.(started := true, udpOpen := true)

  lemma StartsUp(e1: Event, e2: Event)
    requires e1.StartE? && e2 == StartedE(true)
    ensures Enabled(INITIAL, e1) && Enabled(Step(INITIAL, e1), e2) && Step(Step(INITIAL, e1), e2) == STARTED
  {
  }

  lemma AskedFirst(s: State, e: Event)
    requires s == STARTED && e.ResolveE? && e == ResolveE(e.d, 0, 1, e.aaaa, Some(0)) && WellFormedDomain(e.d) && Inv(s)
    ensures Enabled(s, e)
    ensures var t := Step(s, e); Unheld(t) && !t.stopping && Names(t.t, 1, 0) && !t.t.queries[0].viaTcp && 0 in t.t.queries[0].calls
  {
    assert Enabled(s, e);
    Asking(s, e);
    var t := Step(s, e);
    ResolveQuiet(s, e);
    hide Step, Enabled, Inv, WellFormedDomain;
  }

  lemma ResolveQuiet(s: State, e: Event)
    requires Enabled(s, e) && e.ResolveE?
    ensures var t := Step(s, e); t.tasks == s.tasks && t.firing == s.firing && t.stop == s.stop && t.stopping == s.stopping
  {
    hide Begin, Attach, Answer, NewId, NewTimer, WellFormedDomain;
    ResolveHeard(s, e.d, e.q, e.id, e.aaaa, e.timer);
    ResolveFlags(s, e.d, e.q, e.id, e.aaaa, e.timer);
    BeginTasks(s, e.d, e.q, e.id, e.aaaa, e.timer);
    if e.d in s.t.byDomain && s.t.byDomain[e.d] in s.t.queries {
      AttachTasks(s, e.d);
    }
  }

  lemma {:induction false} SixSteps(run: seq<State>, es: seq<Event>)
    requires |es| == 6 && |run| == 7 && run[0] == INITIAL
    requires Enabled(run[0], es[0]) && run[1] == Step(run[0], es[0]) && Enabled(run[1], es[1]) && run[2] == Step(run[1], es[1])
    requires Enabled(run[2], es[2]) && run[3] == Step(run[2], es[2]) && Enabled(run[3], es[3]) && run[4] == Step(run[3], es[3])
    requires Enabled(run[4], es[4]) && run[5] == Step(run[4], es[4]) && Enabled(run[5], es[5]) && run[6] == Step(run[5], es[5])
    ensures IsRun(run, es)
  {
    hide Step, Enabled;
    forall n | 0 <= n < |es| ensures Enabled(run[n], es[n]) && run[n + 1] == Step(run[n], es[n]) {
      assert n == 0 || n == 1 || n == 2 || n == 3 || n == 4 || n == 5;
    }
  }

  /** For every domain that can be printed there is a run in which its caller is told the address that the server sent. */
  lemma LookupHappens(d: bytes, aaaa: bool, r: DnsResult) returns (run: seq<State>, es: seq<Event>)
    requires WellFormedDomain(d) && r.address.Some? && r.fromNetwork
    ensures IsRun(run, es) && |es| == 6 && es[2] == ResolveE(d, 0, 1, aaaa, Some(0)) && es[3] == ResultE(1, r, false)
    ensures var s := run[|es|]; 0 in s.calls.answers && s.calls.answers[0] == r.address
  {
    hide Step, Enabled, Inv, WellFormedDomain, Unheld, Names;
    es := [StartE, StartedE(true), ResolveE(d, 0, 1, aaaa, Some(0)), ResultE(1, r, false), TaskE(1, None, true), FireE(0)];
    StartsUp(es[0], es[1]);
    FirstInv();
    StepInv(INITIAL, es[0]);
    StepInv(Step(INITIAL, es[0]), es[1]);
    AskedFirst(STARTED, es[2]);
    StepInv(STARTED, es[2]);
    var s3 := Step(STARTED, es[2]);
    AnswerArrives(s3, 1, r, false, 0, 0);
    var s4 := Step(s3, es[3]);
    var s5 := Step(s4, es[4]);
    run := [INITIAL, Step(INITIAL, es[0]), STARTED, s3, s4, s5, Step(s5, es[5])];
    SixSteps(run, es);
  }
}
