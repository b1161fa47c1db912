/**
 What callbacks are told: all callbacks of one query the same, and an address only if an
 accepted result for that query carried it.
 */
module DnsAnswers {
  import opened Bytes
  import opened DnsNames
  import opened DnsMessages
  import opened DnsTable
  import opened DnsTableProofs
  import opened DnsResolver
  import opened DnsResolverProofs
  import opened DnsResolverTheorems

  // ----- The invariant

  ghost predicate Agrees(c: Calls, heard: map<Qid, Option<bytes>>, i: nat) {
    i in c.answers && i in c.home ==> c.home[i] in heard && c.answers[i] == heard[c.home[i]]
  }

  ghost predicate Fires(c: Calls, heard: map<Qid, Option<bytes>>, a: Option<bytes>, i: nat) {
    i in c.home && c.home[i] in heard && heard[c.home[i]] == a
  }

  /** Callbacks were told, or are about to be told, how their query ended. */
  ghost predicate Fits(c: Calls, firing: set<nat>, a: Option<bytes>, heard: map<Qid, Option<bytes>>) {
    && (forall i: nat :: Agrees(c, heard, i))
    && (forall i: nat :: i in firing ==> Fires(c, heard, a, i))
    && (forall i: nat :: i in c.home ==> i < c.next)
  }

  ghost predicate Ended(t: Table, heard: map<Qid, Option<bytes>>) {
    forall q :: q in heard ==> !Live(t, q)
  }

  ghost predicate Told(s: State) {
    Fits(s.calls, s.firing, s.answer, s.heard) && Ended(s.t, s.heard)
  }

  /** The callbacks of a pending query wait with it and nowhere else. */
  ghost predicate Mine(c: Calls, firing: set<nat>, q: Qid, ids: set<nat>) {
    forall i: nat :: i in ids ==> AtHome(c, firing, q, i)
  }

  lemma LiveMine(t: Table, c: Calls, firing: set<nat>, q: Qid)
    requires Placed(t, c, firing) && Live(t, q)
    ensures Mine(c, firing, q, t.queries[q].calls)
  {
    forall i: nat | i in t.queries[q].calls ensures AtHome(c, firing, q, i) {
      assert i in Waits(t, q);
    }
  }

  // ----- Callbacks

  lemma NowFits(c: Calls, firing: set<nat>, a: Option<bytes>, heard: map<Qid, Option<bytes>>, b: Option<bytes>)
    requires Fits(c, firing, a, heard)
    ensures Fits(Answer(c.(next := c.next + 1), {c.next}, b), firing, a, heard)
  {
    var d := Answer(c.(next := c.next + 1), {c.next}, b);
    forall i: nat ensures Agrees(d, heard, i) {
      assert Agrees(c, heard, i);
    }
    forall i: nat | i in firing ensures Fires(d, heard, a, i) {
      assert Fires(c, heard, a, i);
    }
  }

  lemma HomeFits(c: Calls, firing: set<nat>, a: Option<bytes>, heard: map<Qid, Option<bytes>>, q: Qid)
    requires Fits(c, firing, a, heard) && c.next !in c.answers && c.next !in firing
    ensures Fits(c.(next := c.next + 1, home := c.home[c.next := q]), firing, a, heard)
  {
    var d := c.(next := c.next + 1, home := c.home[c.next := q]);
    forall i: nat ensures Agrees(d, heard, i) {
      assert Agrees(c, heard, i);
    }
    forall i: nat | i in firing ensures Fires(d, heard, a, i) {
      assert Fires(c, heard, a, i);
    }
  }

  lemma AnswerFits(c: Calls, firing: set<nat>, a: Option<bytes>, heard: map<Qid, Option<bytes>>, q: Qid, ids: set<nat>, b: Option<bytes>)
    requires Fits(c, firing, a, heard) && q !in heard && Mine(c, firing, q, ids)
    ensures Fits(Answer(c, ids, b), firing, a, heard[q := b])
  {
    var d, more := Answer(c, ids, b), heard[q := b];
    forall i: nat ensures Agrees(d, more, i) {
      assert Agrees(c, heard, i);
      assert i in ids ==> AtHome(c, firing, q, i);
    }
    forall i: nat | i in firing ensures Fires(d, more, a, i) {
      assert Fires(c, heard, a, i);
    }
  }

  lemma FinishFits(c: Calls, a: Option<bytes>, heard: map<Qid, Option<bytes>>, q: Qid, ids: set<nat>, b: Option<bytes>)
    requires Fits(c, {}, a, heard) && q !in heard && Mine(c, {}, q, ids)
    ensures Fits(c, ids, b, heard[q := b])
  {
    var more := heard[q := b];
    forall i: nat ensures Agrees(c, more, i) {
      assert Agrees(c, heard, i);
    }
    forall i: nat | i in ids ensures Fires(c, more, b, i) {
      assert AtHome(c, {}, q, i);
    }
  }

  lemma FireFits(c: Calls, firing: set<nat>, a: Option<bytes>, heard: map<Qid, Option<bytes>>, i: nat)
    requires Fits(c, firing, a, heard) && i in firing
    ensures Fits(Answer(c, {i}, a), firing - {i}, a, heard)
  {
    var d := Answer(c, {i}, a);
    assert Fires(c, heard, a, i);
    forall j: nat ensures Agrees(d, heard, j) {
      assert Agrees(c, heard, j);
    }
    forall j: nat | j in firing - {i} ensures Fires(d, heard, a, j) {
      assert Fires(c, heard, a, j);
    }
  }

  // ----- Endings

  lemma EndedOthers(t: Table, u: Table, q: Qid, heard: map<Qid, Option<bytes>>, more: map<Qid, Option<bytes>>)
    requires Ended(t, heard) && Others(t, u, q) && (q in more ==> !Live(u, q))
    requires forall r :: r in more ==> r == q || r in heard
    ensures Ended(u, more)
  {
    hide Watched, Live;
  }

  lemma EndedSame(t: Table, u: Table, heard: map<Qid, Option<bytes>>)
    requires Ended(t, heard) && forall q :: Live(u, q) ==> Live(t, q)
    ensures Ended(u, heard)
  {
    hide Live;
  }

  lemma NotHeard(t: Table, heard: map<Qid, Option<bytes>>, q: Qid)
    requires Ended(t, heard) && Live(t, q)
    ensures q !in heard
  {
    hide Live;
  }

  /** A begun attempt goes on, or is heard of at once. */
  lemma BeginTold(s: State, q: Qid, timer: Option<TimerId>)
    requires Indexed(s.t) && Clock(s.t) && Live(s.t, q) && NewTimer(s.t, timer) && Told(s) && Mine(s.calls, s.firing, q, s.t.queries[q].calls)
    ensures Told(Begin(s, q, timer))
  {
    hide Indexed, Clock, Others, BeginUdp, WellFormedDomain, Watched, Fits, Ended, Mine, Answer, Live;
    NotHeard(s.t, s.heard, q);
    LiveKnown(s.t);
    var u := BeginUdp(s.t, q, timer);
    BeginOthers(s.t, q, timer);
    BeginOthersToo(s, q, timer);
    if WellFormedDomain(s.t.queries[q].domain) && timer.Some? {
      EndedOthers(s.t, u, q, s.heard, s.heard);
    } else {
      PutOthers(u, q, u.queries[q].(calls := {}));
      EndedOthers(s.t, Begin(s, q, timer).t, q, s.heard, s.heard[q := None]);
      AnswerFits(s.calls, s.firing, s.answer, s.heard, q, s.t.queries[q].calls, None);
    }
  }

  lemma AttachTold(s: State, d: bytes)
    requires Told(s) && Placed(s.t, s.calls, s.firing) && d in s.t.byDomain && s.t.byDomain[d] in s.t.queries
    ensures Told(Attach(s, d))
  {
    hide Fits, Ended, Answer;
    NowFits(s.calls, s.firing, s.answer, s.heard, None);
    NextUnplaced(s.t, s.calls, s.firing);
    HomeFits(s.calls, s.firing, s.answer, s.heard, s.t.byDomain[d]);
    EndedSame(s.t, Attach(s, d).t, s.heard);
  }

  lemma NextUnplaced(t: Table, c: Calls, firing: set<nat>)
    requires Placed(t, c, firing)
    ensures c.next !in c.answers && c.next !in firing
  {
    hide Waits;
  }

  lemma OpenTold(s: State, d: bytes, q: Qid, id: u16, aaaa: bool, timer: Option<TimerId>)
    requires Told(s) && Parts(s) && q !in s.t.queries && q !in s.heard && NewId(s.t.byId, id) && NewTimer(s.t, timer)
    requires d !in s.t.byDomain && |s.t.byDomain| < MAX_QUERIES
    ensures Told(Begin(Open(s, d, q, id, aaaa), q, timer))
  {
    hide Orderly, Placed, Fits, Ended, Begin, Others, Named, Indexed, Clock, Waits, Mine, Live;
    var x := Fresh(d, id, aaaa, s.calls.next);
    OpenTable(s.t, s.tasks, q, x);
    var o := Open(s, d, q, id, aaaa);
    EndedOthers(s.t, o.t, q, s.heard, s.heard);
    NextUnplaced(s.t, s.calls, s.firing);
    HomeFits(s.calls, s.firing, s.answer, s.heard, q);
    FreshMine(s.calls, s.firing, q);
    BeginTold(o, q, timer);
  }

  lemma FreshMine(c: Calls, firing: set<nat>, q: Qid)
    requires c.next !in c.answers && c.next !in firing
    ensures Mine(c.(next := c.next + 1, home := c.home[c.next := q]), firing, q, {c.next})
  {
  }

  lemma ResolveTold(s: State, d: bytes, q: Qid, id: u16, aaaa: bool, timer: Option<TimerId>)
    requires Told(s) && Parts(s) && q !in s.t.queries && q !in s.heard && NewId(s.t.byId, id) && NewTimer(s.t, timer)
    ensures Told(Resolve(s, d, q, id, aaaa, timer))
  {
    hide Orderly, Placed, Fits, Ended, Attach, Begin, Open, Answer, Live;
    LiveKnown(s.t);
    NowFits(s.calls, s.firing, s.answer, s.heard, None);
    if s.stopping || !s.started {
    } else if d in s.t.byDomain {
      DomainLive(s.t, s.tasks, d);
      AttachTold(s, d);
    } else if |s.t.byDomain| < MAX_QUERIES {
      OpenTold(s, d, q, id, aaaa, timer);
    }
  }

  lemma ResultTold(s: State, id: u16, r: DnsResult, from: Source)
    requires Told(s)
    ensures Told(OnQueryResult(s, id, r, from))
  {
    hide Fits, Ended, Decide, CancelTimer;
    if !Ignored(s.t, id, from) {
      CancelQueries(s.t, s.t.byId[id]);
      EndedSame(s.t, CancelTimer(s.t, s.t.byId[id]), s.heard);
    }
  }

  // ----- Tasks

  lemma RetryTold(s: State, k: Task, id: u16, timer: Option<TimerId>)
    requires Told(s) && Nearly(s.t, s.tasks, k.q) && Live(s.t, k.q) && Placed(s.t, s.calls, s.firing)
    requires NewId(s.t.byId - {s.t.queries[k.q].txid}, id) && NewTimer(s.t, timer)
    ensures Told(Begin(s.(t := Rekey(s.t, k.q, id)), k.q, timer))
  {
    hide Nearly, Placed, Fits, Ended, Begin, Others, Indexed, Clock, Mine, Live, Rekey;
    LiveKnown(s.t);
    NearlySound(s.t, s.tasks, k.q);
    NotHeard(s.t, s.heard, k.q);
    LiveMine(s.t, s.calls, s.firing, k.q);
    RekeyKeeps(s.t, k.q, id);
    RekeyOthers(s.t, k.q, id);
    var u := Rekey(s.t, k.q, id);
    EndedOthers(s.t, u, k.q, s.heard, s.heard);
    BeginTold(s.(t := u), k.q, timer);
  }

  lemma AaaaTold(s: State, k: Task, id: u16, timer: Option<TimerId>)
    requires Told(s) && Nearly(s.t, s.tasks, k.q) && Live(s.t, k.q) && Placed(s.t, s.calls, s.firing)
    requires NewId(s.t.byId - {s.t.queries[k.q].txid}, id) && NewTimer(s.t, timer)
    ensures Told(Begin(s.(t := Rekey(ToAaaa(s.t, k.q), k.q, id)), k.q, timer))
  {
    hide Nearly, Placed, Fits, Ended, Begin, Others, Indexed, Clock, Mine, Live, Rekey;
    LiveKnown(s.t);
    NearlySound(s.t, s.tasks, k.q);
    NotHeard(s.t, s.heard, k.q);
    LiveMine(s.t, s.calls, s.firing, k.q);
    RekeyKeeps(s.t, k.q, id);
    var v := ToAaaa(s.t, k.q);
    PutOthers(s.t, k.q, v.queries[k.q]);
    RekeyOthers(v, k.q, id);
    var u := Rekey(v, k.q, id);
    OthersAll(s.t, v, u, k.q);
    EndedOthers(s.t, u, k.q, s.heard, s.heard);
    BeginTold(s.(t := u), k.q, timer);
  }

  lemma TcpTold(s: State, q: Qid, timer: Option<TimerId>)
    requires Told(s) && Nearly(s.t, s.tasks, q) && Live(s.t, q) && NewTimer(s.t, timer)
    ensures Told(DoTcp(s, q, timer))
  {
    hide Nearly, Fits, Ended, Others, Indexed, Clock, Live, Arm, TriedTcp, WellFormedDomain;
    LiveKnown(s.t);
    NearlySound(s.t, s.tasks, q);
    NotHeard(s.t, s.heard, q);
    TcpOthers(s.t, q, timer);
    EndedOthers(s.t, Arm(Put(s.t, q, TriedTcp(s.t.queries[q])), q, timer), q, s.heard, s.heard);
  }

  lemma FinishTold(s: State, q: Qid, a: Option<bytes>)
    requires Told(s) && Nearly(s.t, s.tasks, q) && Live(s.t, q) && Placed(s.t, s.calls, {}) && s.firing == {}
    ensures Told(DoFinish(s, q, a))
  {
    hide Nearly, Fits, Ended, Others, Indexed, Clock, Live, Placed, Mine, CancelTimer, Unregister;
    LiveKnown(s.t);
    NearlySound(s.t, s.tasks, q);
    NotHeard(s.t, s.heard, q);
    LiveMine(s.t, s.calls, {}, q);
    FinishOthers(s.t, q);
    FinishParts(s, q, a);
    EndedOthers(s.t, DoFinish(s, q, a).t, q, s.heard, s.heard[q := a]);
    FinishFits(s.calls, s.answer, s.heard, q, s.t.queries[q].calls, a);
  }

  lemma TaskTold(s: State, k: Task, id: u16, timer: Option<TimerId>, ok: bool)
    requires Told(s) && Nearly(s.t, s.tasks, k.q) && TaskOk(s.t, k) && k.q in s.t.queries && Placed(s.t, s.calls, s.firing) && s.firing == {}
    requires NewId(s.t.byId - {s.t.queries[k.q].txid}, id) && NewTimer(s.t, timer)
    ensures Told(Perform(s, k, id, timer, ok))
  {
    TaskFacts(s.t, k);
    hide Nearly, TaskOk, Placed, Begin, DoTcp, DoFinish, Rekey, ToAaaa, Live, Fits, Ended;
    match k
    case Retry(q, was) => RetryTold(s, k, id, timer);
    case Aaaa(q, was) => AaaaTold(s, k, id, timer);
    case Tcp(q) => TcpTold(s, q, timer);
    case TcpStart(q) =>
    case Finish(q, a) => FinishTold(s, q, a);
  }

  lemma TaskETold(s: State, id: u16, timer: Option<TimerId>, ok: bool)
    requires s.tasks != [] && s.tasks[0].q in s.t.queries
    requires Told(s) && Parts(s) && Enabled(s, TaskE(id, timer, ok))
    ensures Told(Perform(s.(tasks := s.tasks[1..]), s.tasks[0], id, timer, ok))
  {
    hide Nearly, TaskOk, Fit, Orderly, Placed, Perform, NewId, NewTimer, Live, Fits, Ended;
    HeadNearly(s.t, s.tasks);
    TaskTold(s.(tasks := s.tasks[1..]), s.tasks[0], id, timer, ok);
  }

  lemma CollectTold(s: State)
    requires Told(s) && Parts(s) && Idle(s)
    ensures Told(Collect(s))
  {
    hide Orderly, Placed, Fits, Ended, AllCalls, OwnTimers;
    var u := Collect(s);
    assert forall q :: !Live(u.t, q);
    assert Ended(u.t, u.heard) by { NoneLive(u.t, u.heard); }
    CollectFits(s);
  }

  lemma NoneLive(t: Table, heard: map<Qid, Option<bytes>>)
    requires forall q :: !Live(t, q)
    ensures Ended(t, heard)
  {
  }

  lemma CollectFits(s: State)
    requires Told(s) && Parts(s) && Idle(s)
    ensures Fits(s.calls, AllCalls(s.t), None, s.heard + map q | q in s.t.byId.Values :: None)
  {
    hide Orderly, Placed, AllCalls, Live;
    var more := s.heard + map q | q in s.t.byId.Values :: None;
    forall i: nat ensures Agrees(s.calls, more, i) {
      assert Agrees(s.calls, s.heard, i);
      if i in s.calls.answers && i in s.calls.home && s.calls.home[i] in s.t.byId.Values {
        ValueLive(s.t, s.calls.home[i]);
      }
    }
    forall i: nat | i in AllCalls(s.t) ensures Fires(s.calls, more, None, i) {
      CallOf(s, i);
    }
  }

  lemma ValueLive(t: Table, q: Qid)
    requires Orderly(t, []) && q in t.byId.Values
    ensures Live(t, q)
  {
    hide Clock, Watch, Fit;
    var i: u16 :| i in t.byId && t.byId[i] == q;
    assert IdOk(t, i);
  }

  lemma CallOf(s: State, i: nat)
    requires Parts(s) && Idle(s) && i in AllCalls(s.t)
    ensures i in s.calls.home && s.calls.home[i] in s.t.byId.Values
  {
    hide Placed, Clock, Watch, Queue, Fit;
    var j: u16 :| j in s.t.byId && s.t.byId[j] in s.t.queries && i in s.t.queries[s.t.byId[j]].calls;
    assert IdOk(s.t, j);
    HomeOf(s.t, s.calls, s.firing, s.t.byId[j], i);
  }

  // ----- Every run

  lemma StepTold(s: State, e: Event)
    requires Inv(s) && Told(s) && Enabled(s, e)
    ensures Told(Step(s, e))
  {
    hide Inv, Parts, Fits, Ended, Resolve, OnQueryResult, Perform, Collect, Answer, AllUdp, NewId, NewTimer, Live;
    assert Parts(s) by { InvParts(s); }
    TimersTold(s);
    match e
    case ResolveNow(a) => NowFits(s.calls, s.firing, s.answer, s.heard, a);
    case ResolveE(d, q, id, aaaa, timer) => ResolveTold(s, d, q, id, aaaa, timer);
    case ResultE(id, r, tcp) => ResultTold(s, id, r, if tcp then FromTcp else FromUdp);
    case TimerE(x) => ResultTold(Timers(s, s.t.timers - {x}), s.t.timers[x].txid, INVALID, FromTimer);
    case TaskE(id, timer, ok) => TaskETold(s, id, timer, ok);
    case FireE(c) => FireFits(s.calls, s.firing, s.answer, s.heard, c);
    case CollectE =>
      CollectingIsIdle(s);
      CollectTold(s);
    case _ =>
  }

  lemma CollectingIsIdle(s: State)
    requires Inv(s) && s.stop.Collecting?
    ensures Idle(s)
  {
    hide Sound, Watch, Queue, Placed;
  }

  lemma TimersTold(s: State)
    requires Ended(s.t, s.heard)
    ensures forall timers, discarded :: Ended(s.t.(timers := timers, discarded := discarded), s.heard)
  {
  }

  lemma {:induction false} RunTold(run: seq<State>, es: seq<Event>, n: nat)
    requires IsRun(run, es) && n < |run|
    ensures Told(run[n])
    decreases n
  {
    hide Inv, Told, Step, Enabled;
    if n == 0 {
      assert Told(INITIAL) by { FirstTold(); }
    } else {
      RunTold(run, es, n - 1);
      EveryRun(run, es, n - 1);
      StepTold(run[n - 1], es[n - 1]);
    }
  }

  lemma FirstTold()
    ensures Told(INITIAL)
  {
  }

  /** All callbacks that joined one query are told the same. */
  lemma SameAnswer(run: seq<State>, es: seq<Event>, n: nat, i: nat, j: nat)
    requires IsRun(run, es) && n < |run|
    requires var c := run[n].calls; i in c.answers && j in c.answers && i in c.home && j in c.home && c.home[i] == c.home[j]
    ensures run[n].calls.answers[i] == run[n].calls.answers[j]
  {
    hide IsRun, Ended;
    RunTold(run, es, n);
    assert Agrees(run[n].calls, run[n].heard, i) && Agrees(run[n].calls, run[n].heard, j);
  }

  // ----- Where an address comes from

  /** Before step n, a result with this address was accepted for the query, under the id it had. */
  ghost predicate Heard(run: seq<State>, es: seq<Event>, n: nat, q: Qid, a: bytes)
    requires n <= |es| < |run|
  {
    exists m :: 0 <= m < n && Carries(run[m], es[m], q, a)
  }

  ghost predicate Carries(s: State, e: Event, q: Qid, a: bytes) {
    && e.ResultE? && e.r.address == Some(a) && e.id in s.t.byId && s.t.byId[e.id] == q
    && !Ignored(s.t, e.id, if e.tcp then FromTcp else FromUdp)
  }

  /** A task that will answer with an address. */
  predicate Answers(k: Task, q: Qid, a: bytes) {
    k == Finish(q, Some(a))
  }

  lemma ResultTasks(s: State, id: u16, r: DnsResult, from: Source, k: Task, q: Qid, a: bytes)
    requires k in OnQueryResult(s, id, r, from).tasks && Answers(k, q, a)
    ensures k in s.tasks || (r.address == Some(a) && !Ignored(s.t, id, from) && s.t.byId[id] == q)
  {
    hide CancelTimer;
  }

  lemma BeginHeard(s: State, q: Qid, timer: Option<TimerId>)
    requires q in s.t.queries
    ensures Begin(s, q, timer).tasks == s.tasks
    ensures forall r :: r in Begin(s, q, timer).heard && Begin(s, q, timer).heard[r].Some? ==> r in s.heard && Begin(s, q, timer).heard[r] == s.heard[r]
  {
    hide BeginUdp, WellFormedDomain, Answer;
  }

  lemma ResolveHeard(s: State, d: bytes, q: Qid, id: u16, aaaa: bool, timer: Option<TimerId>)
    ensures var u := Resolve(s, d, q, id, aaaa, timer);
            && u.tasks == s.tasks
            && forall r :: r in u.heard && u.heard[r].Some? ==> r in s.heard && u.heard[r] == s.heard[r]
  {
    hide Begin, Answer;
    BeginHeard(Open(s, d, q, id, aaaa), q, timer);
  }

  lemma PerformHeard(s: State, k: Task, id: u16, timer: Option<TimerId>, ok: bool)
    requires k.q in s.t.queries
    ensures var u := Perform(s, k, id, timer, ok);
            && (forall j, q, a :: j in u.tasks && Answers(j, q, a) ==> j in s.tasks)
            && forall r :: r in u.heard && u.heard[r].Some? ==> (r in s.heard && u.heard[r] == s.heard[r]) || Answers(k, r, u.heard[r].value)
  {
    hide Begin, Rekey, ToAaaa, CancelTimer, Unregister, Arm, WellFormedDomain;
    RekeyKeeps(s.t, k.q, id);
    if k.Retry? {
      BeginHeard(s.(t := Rekey(s.t, k.q, id)), k.q, timer);
    } else if k.Aaaa? {
      BeginHeard(s.(t := Rekey(ToAaaa(s.t, k.q), k.q, id)), k.q, timer);
    }
  }

  lemma StepTasks(s: State, e: Event, k: Task, q: Qid, a: bytes)
    requires Enabled(s, e) && k in Step(s, e).tasks && Answers(k, q, a)
    ensures k in s.tasks || Carries(s, e, q, a)
  {
    hide Resolve, OnQueryResult, Perform, Collect, Answer, AllUdp, NewId, NewTimer;
    match e
    case ResolveE(d, p, id, aaaa, timer) => ResolveHeard(s, d, p, id, aaaa, timer);
    case ResultE(id, r, tcp) => ResultTasks(s, id, r, if tcp then FromTcp else FromUdp, k, q, a);
    case TimerE(x) => ResultTasks(Timers(s, s.t.timers - {x}), s.t.timers[x].txid, INVALID, FromTimer, k, q, a);
    case TaskE(id, timer, ok) =>
      PerformHeard(s.(tasks := s.tasks[1..]), s.tasks[0], id, timer, ok);
      assert k in s.tasks[1..];
    case CollectE => CollectTasks(s);
    case _ =>
  }

  lemma CollectTasks(s: State)
    ensures Collect(s).tasks == s.tasks
    ensures forall r :: r in Collect(s).heard && Collect(s).heard[r].Some? ==> r in s.heard && Collect(s).heard[r] == s.heard[r]
  {
    hide AllCalls, Emptied;
  }

  lemma StepHeard(s: State, e: Event, q: Qid, a: bytes)
    requires Enabled(s, e) && q in Step(s, e).heard && Step(s, e).heard[q] == Some(a)
    ensures (q in s.heard && s.heard[q] == Some(a)) || exists k :: k in s.tasks && Answers(k, q, a)
  {
    hide Resolve, OnQueryResult, Perform, Collect, Answer, AllUdp, NewId, NewTimer, Answers;
    match e
    case ResolveE(d, p, id, aaaa, timer) => ResolveHeard(s, d, p, id, aaaa, timer);
    case ResultE(id, r, tcp) => ResultHeard(s, id, r, if tcp then FromTcp else FromUdp);
    case TimerE(x) => ResultHeard(Timers(s, s.t.timers - {x}), s.t.timers[x].txid, INVALID, FromTimer);
    case TaskE(id, timer, ok) =>
      PerformHeard(s.(tasks := s.tasks[1..]), s.tasks[0], id, timer, ok);
      assert s.tasks[0] in s.tasks;
    case CollectE => CollectTasks(s);
    case _ =>
  }

  lemma ResultHeard(s: State, id: u16, r: DnsResult, from: Source)
    ensures OnQueryResult(s, id, r, from).heard == s.heard
  {
    hide CancelTimer, Decide;
  }

  lemma HeardLasts(run: seq<State>, es: seq<Event>, n: nat, q: Qid, a: bytes)
    requires n < |es| < |run|
    ensures Heard(run, es, n, q, a) ==> Heard(run, es, n + 1, q, a)
    ensures Carries(run[n], es[n], q, a) ==> Heard(run, es, n + 1, q, a)
  {
    hide Carries;
  }

  lemma {:induction false} RunHeard(run: seq<State>, es: seq<Event>, n: nat, q: Qid, a: bytes)
    requires IsRun(run, es) && n < |run|
    ensures (q in run[n].heard && run[n].heard[q] == Some(a)) || Finish(q, Some(a)) in run[n].tasks ==> Heard(run, es, n, q, a)
    decreases n
  {
    hide Step, Enabled, Heard;
    if n > 0 {
      RunHeard(run, es, n - 1, q, a);
      HeardLasts(run, es, n - 1, q, a);
      if Finish(q, Some(a)) in run[n].tasks {
        StepTasks(run[n - 1], es[n - 1], Finish(q, Some(a)), q, a);
      }
      if q in run[n].heard && run[n].heard[q] == Some(a) {
        StepHeard(run[n - 1], es[n - 1], q, a);
      }
    }
  }

  /** No callback is told an address unless a result that was accepted for its query carried it. */
  lemma Truthful(run: seq<State>, es: seq<Event>, n: nat, i: nat, a: bytes)
    requires IsRun(run, es) && n < |run| && i in run[n].calls.home && i in run[n].calls.answers && run[n].calls.answers[i] == Some(a)
    ensures Heard(run, es, n, run[n].calls.home[i], a)
  {
    hide IsRun, Ended, Heard;
    RunTold(run, es, n);
    assert Agrees(run[n].calls, run[n].heard, i);
    RunHeard(run, es, n, run[n].calls.home[i], a);
  }

  // ----- An accepted address is final

  /** The query has ended so, or its handler is about to end it so. */
  ghost predicate Decided(s: State, q: Qid, a: Option<bytes>) {
    Finish(q, a) in s.tasks || (q in s.heard && s.heard[q] == a)
  }

  lemma AddressIsFinal(x: Query, q: Qid, r: DnsResult, from: Source)
    requires r.address.Some? && !from.FromTimer?
    ensures Decide(x, q, r, from) == Finish(q, r.address)
  {
  }

  lemma CarriesDecides(s: State, e: Event, q: Qid, a: bytes)
    requires Enabled(s, e) && Carries(s, e, q, a)
    ensures Decided(Step(s, e), q, Some(a))
  {
    hide CancelTimer, Decide;
    AddressIsFinal(s.t.queries[q], q, e.r, if e.tcp then FromTcp else FromUdp);
    assert Finish(q, Some(a)) in [Finish(q, Some(a))];
  }

  lemma BeginElsewhere(s: State, q: Qid, timer: Option<TimerId>)
    requires q in s.t.queries
    ensures forall r :: r in s.heard && r != q ==> r in Begin(s, q, timer).heard && Begin(s, q, timer).heard[r] == s.heard[r]
  {
    hide BeginUdp, WellFormedDomain, Answer;
  }

  lemma ResolveStays(s: State, d: bytes, q: Qid, id: u16, aaaa: bool, timer: Option<TimerId>)
    requires q !in s.heard
    ensures var u := Resolve(s, d, q, id, aaaa, timer);
            forall r :: r in s.heard ==> r in u.heard && u.heard[r] == s.heard[r]
  {
    hide Begin, Answer;
    BeginElsewhere(Open(s, d, q, id, aaaa), q, timer);
  }

  lemma PerformStays(s: State, k: Task, id: u16, timer: Option<TimerId>, ok: bool)
    requires k.q in s.t.queries && k.q !in s.heard
    ensures var u := Perform(s, k, id, timer, ok);
            && (forall r :: r in s.heard ==> r in u.heard && u.heard[r] == s.heard[r])
            && (forall j :: j in s.tasks ==> j in u.tasks)
            && (k.Finish? ==> k.q in u.heard && u.heard[k.q] == k.addr)
  {
    hide Begin, Rekey, ToAaaa, CancelTimer, Unregister, Arm, WellFormedDomain;
    RekeyKeeps(s.t, k.q, id);
    if k.Retry? {
      BeginElsewhere(s.(t := Rekey(s.t, k.q, id)), k.q, timer);
      BeginHeard(s.(t := Rekey(s.t, k.q, id)), k.q, timer);
    } else if k.Aaaa? {
      BeginElsewhere(s.(t := Rekey(ToAaaa(s.t, k.q), k.q, id)), k.q, timer);
      BeginHeard(s.(t := Rekey(ToAaaa(s.t, k.q), k.q, id)), k.q, timer);
    }
  }

  lemma HeadUnheard(s: State)
    requires Inv(s) && Told(s) && s.tasks != []
    ensures s.tasks[0].q in s.t.queries && s.tasks[0].q !in s.heard
  {
    hide Inv, Fits, Ended, Nearly, Fit, TaskOk, Live, Orderly, Placed;
    InvParts(s);
    HeadNearly(s.t, s.tasks);
    LiveKnown(s.t);
    NotHeard(s.t, s.heard, s.tasks[0].q);
  }

  lemma CollectStays(s: State)
    requires Inv(s) && Told(s) && Idle(s)
    ensures forall r :: r in s.heard ==> r in Collect(s).heard && Collect(s).heard[r] == s.heard[r]
  {
    hide Inv, Fits, Orderly, Placed, AllCalls, Emptied, Live;
    InvParts(s);
    forall r | r in s.heard ensures r !in s.t.byId.Values {
      if r in s.t.byId.Values {
        ValueLive(s.t, r);
      }
    }
  }

  /** How a query ended is never changed. */
  lemma HeardStays(s: State, e: Event, q: Qid)
    requires Inv(s) && Told(s) && Enabled(s, e) && q in s.heard
    ensures q in Step(s, e).heard && Step(s, e).heard[q] == s.heard[q]
  {
    hide Inv, Told, Resolve, OnQueryResult, Perform, Collect, Answer, AllUdp, NewId, NewTimer;
    match e
    case ResolveE(d, p, id, aaaa, timer) => ResolveStays(s, d, p, id, aaaa, timer);
    case ResultE(id, r, tcp) => ResultHeard(s, id, r, if tcp then FromTcp else FromUdp);
    case TimerE(x) => ResultHeard(Timers(s, s.t.timers - {x}), s.t.timers[x].txid, INVALID, FromTimer);
    case TaskE(id, timer, ok) =>
      HeadUnheard(s);
      PerformStays(s.(tasks := s.tasks[1..]), s.tasks[0], id, timer, ok);
    case CollectE =>
      CollectingIsIdle(s);
      CollectStays(s);
    case _ =>
  }

  /** A task waits its turn. */
  lemma TaskStays(s: State, e: Event, k: Task)
    requires Inv(s) && Told(s) && Enabled(s, e) && k in s.tasks && !(e.TaskE? && s.tasks[0] == k)
    ensures k in Step(s, e).tasks
  {
    hide Inv, Told, Resolve, OnQueryResult, Perform, Collect, Answer, AllUdp, NewId, NewTimer;
    match e
    case ResolveE(d, p, id, aaaa, timer) => ResolveHeard(s, d, p, id, aaaa, timer);
    case TaskE(id, timer, ok) =>
      HeadUnheard(s);
      Later(s.tasks, k);
      PerformStays(s.(tasks := s.tasks[1..]), s.tasks[0], id, timer, ok);
    case CollectE => CollectTasks(s);
    case _ =>
  }

  lemma Later(tasks: seq<Task>, k: Task)
    requires tasks != [] && k in tasks && k != tasks[0]
    ensures k in tasks[1..]
  {
    var i :| 0 <= i < |tasks| && tasks[i] == k;
    assert tasks[1..][i - 1] == k;
  }

  lemma DecidedStays(s: State, e: Event, q: Qid, a: Option<bytes>)
    requires Inv(s) && Told(s) && Enabled(s, e) && Decided(s, q, a)
    ensures Decided(Step(s, e), q, a)
  {
    hide Inv, Told, Step, Perform;
    if q in s.heard && s.heard[q] == a {
      HeardStays(s, e, q);
    } else if e.TaskE? && s.tasks[0] == Finish(q, a) {
      HeadUnheard(s);
      FinishHead(s, e);
    } else {
      TaskStays(s, e, Finish(q, a));
    }
  }

  lemma FinishHead(s: State, e: Event)
    requires Enabled(s, e) && e.TaskE? && s.tasks[0].Finish? && s.tasks[0].q in s.t.queries && s.tasks[0].q !in s.heard
    ensures s.tasks[0].q in Step(s, e).heard && Step(s, e).heard[s.tasks[0].q] == s.tasks[0].addr
  {
    hide Perform, NewId, NewTimer;
    PerformStays(s.(tasks := s.tasks[1..]), s.tasks[0], e.id, e.timer, e.ok);
  }

  /** In every run: a result with an address that is accepted for a query ends that query with that address, for good. */
  lemma {:induction false} AcceptedIsFinal(run: seq<State>, es: seq<Event>, m: nat, n: nat, q: Qid, a: bytes)
    requires IsRun(run, es) && m < n < |run| && Carries(run[m], es[m], q, a)
    ensures Decided(run[n], q, Some(a))
    decreases n
  {
    hide Inv, Told, Step, Enabled, Carries, Decided;
    if n == m + 1 {
      CarriesDecides(run[m], es[m], q, a);
    } else {
      AcceptedIsFinal(run, es, m, n - 1, q, a);
      EveryRun(run, es, n - 1);
      RunTold(run, es, n - 1);
      DecidedStays(run[n - 1], es[n - 1], q, Some(a));
    }
  }

  /** So a query that has ended ended with an address exactly if a result that was accepted for it carried that address. */
  lemma EndsWithAddressExactly(run: seq<State>, es: seq<Event>, n: nat, q: Qid, a: bytes)
    requires IsRun(run, es) && n < |run| && q in run[n].heard
    ensures run[n].heard[q] == Some(a) <==> Heard(run, es, n, q, a)
  {
    hide Step, Enabled, Carries, Inv, Told;
    RunHeard(run, es, n, q, a);
    if Heard(run, es, n, q, a) {
      var m :| 0 <= m < n && Carries(run[m], es[m], q, a);
      AcceptedIsFinal(run, es, m, n, q, a);
      EveryRun(run, es, n);
      RunTold(run, es, n);
      EndedHasNoTask(run[n], Finish(q, Some(a)));
    }
  }

  lemma EndedHasNoTask(s: State, k: Task)
    requires Inv(s) && Told(s) && k.q in s.heard
    ensures k !in s.tasks
  {
    hide Sound, Watch, Placed, Life, Fits, Watched;
    assert k in s.tasks ==> TaskOk(s.t, k);
  }

  // ----- Giving up

  /** An attempt could not be printed or timed. */
  ghost predicate BeginFails(s: State, e: Event, q: Qid) {
    || (e.ResolveE? && e.q == q && (!WellFormedDomain(e.d) || e.timer.None?))
    || (e.TaskE? && s.tasks != [] && (s.tasks[0].Retry? || s.tasks[0].Aaaa?) && s.tasks[0].q == q && e.timer.None?)
  }

  /** TCP could not be timed or started, timed out, or brought a broken or truncated answer. */
  ghost predicate TcpFails(s: State, e: Event, q: Qid) {
    || (e.TaskE? && s.tasks != [] && s.tasks[0] == Tcp(q) && e.timer.None?)
    || (e.TaskE? && s.tasks != [] && s.tasks[0] == TcpStart(q) && !e.ok)
    || (e.TimerE? && e.x in s.t.timers && Names(s.t, s.t.timers[e.x].txid, q) && s.t.queries[q].viaTcp)
    || (e.ResultE? && e.tcp && Names(s.t, e.id, q) && e.r.address.None? && (!e.r.fromNetwork || e.r.truncated))
  }

  /** The server answered that there is no such record, and no other record type is left to ask for. */
  ghost predicate NoRecord(s: State, e: Event, q: Qid) {
    && e.ResultE? && Names(s.t, e.id, q) && e.r.fromNetwork && e.r.address.None? && !e.r.truncated
    && !(s.t.queries[q].tryAAAA && s.t.queries[q].qtype == TYPE_A)
  }

  predicate Names(t: Table, id: u16, q: Qid) {
    id in t.byId && t.byId[id] == q && q in t.queries
  }

  ghost predicate GivesUp(s: State, e: Event, q: Qid) {
    (e.CollectE? && q in s.t.byId.Values) || BeginFails(s, e, q) || TcpFails(s, e, q) || NoRecord(s, e, q)
  }

  lemma ResultGivesUp(s: State, id: u16, r: DnsResult, from: Source, q: Qid)
    requires Finish(q, None) in OnQueryResult(s, id, r, from).tasks && Finish(q, None) !in s.tasks
    requires (from.FromTimer? ==> r == INVALID) && (from.FromUdp? ==> r.fromNetwork)
    ensures Names(s.t, id, q) && r.address.None?
    ensures from.FromTimer? ==> s.t.queries[q].viaTcp
    ensures from.FromUdp? ==> !r.truncated
    ensures !from.FromTimer? && r.fromNetwork && !r.truncated ==> !(s.t.queries[q].tryAAAA && s.t.queries[q].qtype == TYPE_A)
  {
    hide CancelTimer;
  }

  lemma PerformGivesUp(s: State, k: Task, id: u16, timer: Option<TimerId>, ok: bool, q: Qid)
    requires k.q in s.t.queries && WellFormedDomain(s.t.queries[k.q].domain)
    ensures var u := Perform(s, k, id, timer, ok);
            && (Finish(q, None) in u.tasks ==> Finish(q, None) in s.tasks || (k == Tcp(q) && timer.None?) || (k == TcpStart(q) && !ok))
            && (q in u.heard && u.heard[q] == None ==>
                  (q in s.heard && s.heard[q] == None) || k == Finish(q, None) || ((k.Retry? || k.Aaaa?) && k.q == q && timer.None?))
  {
    hide Begin, Rekey, ToAaaa, CancelTimer, Unregister, Arm, WellFormedDomain;
    RekeyKeeps(s.t, k.q, id);
    if k.Retry? {
      BeginNone(s.(t := Rekey(s.t, k.q, id)), k.q, timer, q);
      SameDomain(s.t, k.q, id);
    } else if k.Aaaa? {
      BeginNone(s.(t := Rekey(ToAaaa(s.t, k.q), k.q, id)), k.q, timer, q);
      SameDomain(s.t, k.q, id);
    }
  }

  lemma SameDomain(t: Table, q: Qid, id: u16)
    requires q in t.queries
    ensures q in Rekey(t, q, id).queries && q in ToAaaa(t, q).queries && q in Rekey(ToAaaa(t, q), q, id).queries
    ensures Rekey(t, q, id).queries[q].domain == t.queries[q].domain
    ensures Rekey(ToAaaa(t, q), q, id).queries[q].domain == t.queries[q].domain
  {
  }

  lemma BeginNone(s: State, q: Qid, timer: Option<TimerId>, r: Qid)
    requires q in s.t.queries
    ensures Begin(s, q, timer).tasks == s.tasks
    ensures r in Begin(s, q, timer).heard && Begin(s, q, timer).heard[r] == None ==>
              (r in s.heard && s.heard[r] == None) || (r == q && (timer.None? || !WellFormedDomain(s.t.queries[q].domain)))
  {
    hide BeginUdp, WellFormedDomain, Answer;
  }

  lemma ResolveNone(s: State, d: bytes, q: Qid, id: u16, aaaa: bool, timer: Option<TimerId>, r: Qid)
    ensures var u := Resolve(s, d, q, id, aaaa, timer);
            && u.tasks == s.tasks
            && (r in u.heard && u.heard[r] == None ==> (r in s.heard && s.heard[r] == None) || (r == q && (timer.None? || !WellFormedDomain(d))))
  {
    hide Begin, Answer, WellFormedDomain;
    BeginNone(Open(s, d, q, id, aaaa), q, timer, r);
  }

  lemma HeadPrints(s: State)
    requires Inv(s) && s.tasks != []
    ensures s.tasks[0].q in s.t.queries && WellFormedDomain(s.t.queries[s.tasks[0].q].domain)
  {
    hide Inv, Nearly, TaskOk, Live, Orderly, Placed, Within, WellFormedDomain;
    InvParts(s);
    HeadNearly(s.t, s.tasks);
    LiveKnown(s.t);
  }

  lemma StepGivesUp(s: State, e: Event, q: Qid)
    requires Inv(s) && Enabled(s, e) && Decided(Step(s, e), q, None)
    ensures Decided(s, q, None) || GivesUp(s, e, q)
  {
    hide Inv, Resolve, OnQueryResult, Perform, Collect, Answer, AllUdp, NewId, NewTimer, WellFormedDomain;
    match e
    case ResolveE(d, p, id, aaaa, timer) => ResolveNone(s, d, p, id, aaaa, timer, q);
    case ResultE(id, r, tcp) => ResultStepGivesUp(s, e, q);
    case TimerE(x) => TimerStepGivesUp(s, x, q);
    case TaskE(id, timer, ok) =>
      HeadPrints(s);
      PerformGivesUp(s.(tasks := s.tasks[1..]), s.tasks[0], id, timer, ok, q);
      assert s.tasks[0] in s.tasks && forall k :: k in s.tasks[1..] ==> k in s.tasks;
    case CollectE => CollectNone(s, q);
    case _ =>
  }

  lemma ResultStepGivesUp(s: State, e: Event, q: Qid)
    requires Enabled(s, e) && e.ResultE? && Decided(Step(s, e), q, None)
    ensures Decided(s, q, None) || GivesUp(s, e, q)
  {
    hide OnQueryResult;
    var from := if e.tcp then FromTcp else FromUdp;
    ResultHeard(s, e.id, e.r, from);
    if Finish(q, None) in OnQueryResult(s, e.id, e.r, from).tasks && Finish(q, None) !in s.tasks {
      ResultGivesUp(s, e.id, e.r, from, q);
    }
  }

  lemma TimerStepGivesUp(s: State, x: TimerId, q: Qid)
    requires Enabled(s, TimerE(x)) && Decided(Step(s, TimerE(x)), q, None)
    ensures Decided(s, q, None) || GivesUp(s, TimerE(x), q)
  {
    hide OnQueryResult;
    var t, id := Timers(s, s.t.timers - {x}), s.t.timers[x].txid;
    ResultHeard(t, id, INVALID, FromTimer);
    if Finish(q, None) in OnQueryResult(t, id, INVALID, FromTimer).tasks && Finish(q, None) !in s.tasks {
      ResultGivesUp(t, id, INVALID, FromTimer, q);
    }
  }

  lemma CollectNone(s: State, q: Qid)
    ensures Collect(s).tasks == s.tasks
    ensures q in Collect(s).heard && Collect(s).heard[q] == None ==> (q in s.heard && s.heard[q] == None) || q in s.t.byId.Values
  {
    hide AllCalls, Emptied;
  }

  /**
   In every run: a query ends without an address only by Stop, by an attempt that could not be
   begun, after TCP failed, or on the server's word when no record type is left.
   */
  lemma {:induction false} GivesUpOnlyThen(run: seq<State>, es: seq<Event>, n: nat, q: Qid)
    requires IsRun(run, es) && n < |run| && Decided(run[n], q, None)
    ensures exists m :: 0 <= m < n && GivesUp(run[m], es[m], q)
    decreases n
  {
    hide Inv, Step, Enabled, GivesUp;
    if n == 0 {
      assert false;
    } else {
      EveryRun(run, es, n - 1);
      StepGivesUp(run[n - 1], es[n - 1], q);
      if Decided(run[n - 1], q, None) {
        GivesUpOnlyThen(run, es, n - 1, q);
      }
    }
  }
}
