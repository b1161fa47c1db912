/** The resolver in every run: callbacks, the two indexes, timers and the budget of a query. */
module DnsResolverTheorems {
  import opened Bytes
  import opened DnsNames
  import opened DnsMessages
  import opened DnsTable
  import opened DnsTableProofs
  import opened DnsResolver
  import opened DnsResolverProofs

  // ----- Callbacks

  ghost predicate KeepsAnswers(c: Calls, d: Calls) {
    c.next <= d.next && forall i :: i in c.answers ==> i in d.answers && d.answers[i] == c.answers[i]
  }

  /** Telling someone new changes nothing for those already told. */
  lemma AnswerKeeps(c: Calls, ids: set<nat>, a: Option<bytes>)
    requires !Answer(c, ids, a).twice
    ensures KeepsAnswers(c, Answer(c, ids, a))
  {
  }

  lemma BeginKeepsAnswers(s: State, q: Qid, timer: Option<TimerId>)
    requires q in s.t.queries && !Begin(s, q, timer).calls.twice
    ensures KeepsAnswers(s.calls, Begin(s, q, timer).calls)
  {
    hide BeginUdp, WellFormedDomain, Answer;
    if !Answer(s.calls, s.t.queries[q].calls, None).twice {
      AnswerKeeps(s.calls, s.t.queries[q].calls, None);
    }
  }

  lemma ResolveKeeps(s: State, d: bytes, q: Qid, id: u16, aaaa: bool, timer: Option<TimerId>)
    requires !Resolve(s, d, q, id, aaaa, timer).calls.twice
    ensures KeepsAnswers(s.calls, Resolve(s, d, q, id, aaaa, timer).calls)
  {
    hide Begin, Answer;
    var u := Resolve(s, d, q, id, aaaa, timer);
    if u == AtOnce(s, None) {
      AnswerKeeps(s.calls.(next := s.calls.next + 1), {s.calls.next}, None);
    } else if u == Begin(Open(s, d, q, id, aaaa), q, timer) {
      BeginKeepsAnswers(Open(s, d, q, id, aaaa), q, timer);
    }
  }

  lemma PerformKeeps(s: State, k: Task, id: u16, timer: Option<TimerId>, ok: bool)
    requires k.q in s.t.queries && !Perform(s, k, id, timer, ok).calls.twice
    ensures KeepsAnswers(s.calls, Perform(s, k, id, timer, ok).calls)
  {
    hide Begin, Rekey, ToAaaa, DoTcp, DoFinish;
    RekeyKeeps(s.t, k.q, id);
    match k
    case Retry(q, was) =>
      if was in s.t.byId {
        BeginKeepsAnswers(s.(t := Rekey(s.t, q, id)), q, timer);
      }
    case Aaaa(q, was) =>
      if was in s.t.byId {
        BeginKeepsAnswers(s.(t := Rekey(ToAaaa(s.t, q), q, id)), q, timer);
      }
    case Tcp(q) => QuietTasks(s, q, timer, None);
    case TcpStart(q) =>
    case Finish(q, a) => QuietTasks(s, q, None, a);
  }

  lemma QuietTasks(s: State, q: Qid, timer: Option<TimerId>, a: Option<bytes>)
    requires q in s.t.queries
    ensures DoTcp(s, q, timer).calls == s.calls == DoFinish(s, q, a).calls
  {
    hide CancelTimer, Unregister, Arm, TriedTcp, WellFormedDomain;
  }

  lemma NotTwice(s: State)
    requires Inv(s)
    ensures !s.calls.twice
  {
    hide Sound, Watch, Queue, Life;
  }

  lemma CollectCallsSame(s: State)
    ensures Collect(s).calls == s.calls
  {
  }

  lemma StepKeeps(s: State, e: Event)
    requires Inv(s) && Enabled(s, e)
    ensures KeepsAnswers(s.calls, Step(s, e).calls)
  {
    hide Inv, Resolve, Perform, Answer, AllUdp, NewId, NewTimer, Decide, CancelTimer, Collect, Ignored;
    StepInv(s, e);
    NotTwice(Step(s, e));
    CollectCallsSame(s);
    match e
    case ResolveNow(a) => AnswerKeeps(s.calls.(next := s.calls.next + 1), {s.calls.next}, a);
    case ResolveE(d, q, id, aaaa, timer) => ResolveKeeps(s, d, q, id, aaaa, timer);
    case TaskE(id, timer, ok) => PerformKeeps(s.(tasks := s.tasks[1..]), s.tasks[0], id, timer, ok);
    case FireE(c) => AnswerKeeps(s.calls, {c}, s.answer);
    case _ =>
  }

  /** No callback is ever called twice: what it was told stays what it was told. */
  lemma {:induction false} AtMostOnce(run: seq<State>, es: seq<Event>, m: nat, n: nat)
    requires IsRun(run, es) && m <= n < |run|
    ensures !run[n].calls.twice && KeepsAnswers(run[m].calls, run[n].calls)
    decreases n
  {
    hide Inv, Step, Enabled;
    EveryRun(run, es, n);
    NotTwice(run[n]);
    if m < n {
      AtMostOnce(run, es, m, n - 1);
      EveryRun(run, es, n - 1);
      StepKeeps(run[n - 1], es[n - 1]);
    }
  }

  /** When Stop returns, every callback ever given has been called. */
  lemma ExactlyOnceAfterStop(run: seq<State>, es: seq<Event>, n: nat, i: nat)
    requires IsRun(run, es) && n < |es| && es[n].StoppedE? && i < run[n].calls.next
    ensures i in run[n].calls.answers && !run[n].calls.twice
  {
    hide Inv, Step;
    EveryRun(run, es, n);
    assert Enabled(run[n], es[n]);
    UnlockedAnswered(run[n], i);
  }

  lemma UnlockedAnswered(s: State, i: nat)
    requires Inv(s) && s.stop.Unlocked? && i < s.calls.next
    ensures i in s.calls.answers && !s.calls.twice
  {
    hide Sound, Watch, Queue, Placed;
    NobodyWaits(s, i);
    NotTwice(s);
  }

  /**
   Stop on a resolver that is not started returns at once. Then every callback has been called
   exactly when no query is left in the index.
   */
  lemma EarlyStopExact(s: State)
    requires Inv(s) && Idle(s)
    ensures (forall i: nat :: i < s.calls.next ==> i in s.calls.answers) <==> s.t.byId == map[]
  {
    hide Sound, Watch, Queue, Placed, Life, Waits, Somewhere;
    if s.t.byId != map[] {
      var j :| j in s.t.byId;
      UnansweredCall(s, j);
    } else {
      forall i: nat | i < s.calls.next ensures i in s.calls.answers {
        NobodyWaits(s, i);
      }
    }
  }

  lemma UnansweredCall(s: State, j: u16)
    requires Inv(s) && j in s.t.byId
    ensures exists i: nat :: i < s.calls.next && i !in s.calls.answers
  {
    hide Watch, Queue, Placed, Life, Clock, Within, WellFormedDomain;
    var q := s.t.byId[j];
    assert IdOk(s.t, j) && Live(s.t, q) && Fit(s.t.queries[q]);
    var i: nat :| i in s.t.queries[q].calls;
    HomeOf(s.t, s.calls, s.firing, q, i);
    assert i < s.calls.next && i !in s.calls.answers;
  }

  lemma NobodyWaits(s: State, i: nat)
    requires Inv(s) && s.firing == {} && s.t.byId == map[] && i < s.calls.next
    ensures i in s.calls.answers
  {
    hide Sound, Watch, Queue, Life;
    assert Somewhere(s.t, s.calls, s.firing, i);
  }

  /** And a query can be left there: one that was asked for while Start was about to fail. */
  lemma FailedStartLeavesQuery(d: bytes)
    requires WellFormedDomain(d)
    ensures exists run: seq<State>, es: seq<Event> :: IsRun(run, es) && !run[|es|].started && Unheld(run[|es|])
                              && run[|es|].calls.next == 1 && 0 !in run[|es|].calls.answers
  {
    hide Enabled, Step, Begin, Unheld, WellFormedDomain, IsRun;
    var es := [StartE, ResolveE(d, 0, 1, false, Some(0)), StartedE(false)];
    var s1 := STARTING;
    var s2 := Begin(Open(s1, d, 0, 1, false), 0, Some(0));
    AskedMeanwhile(d);
    var s3 := s2.(starting := false, started := false, udpOpen := false);
    StartFails(s2);
    FailedRun([INITIAL, s1, s2, s3], es);
    assert [INITIAL, s1, s2, s3][|es|] == s3;
  }

  const STARTING := INITIAL.(started := true, starting := true, stopping := false)

  lemma AskedMeanwhile(d: bytes)
    requires WellFormedDomain(d)
    ensures Enabled(STARTING, ResolveE(d, 0, 1, false, Some(0)))
    ensures var s := Begin(Open(STARTING, d, 0, 1, false), 0, Some(0));
            && Step(STARTING, ResolveE(d, 0, 1, false, Some(0))) == s
            && s.starting && s.stop.NotStopping? && Idle(s) && s.calls == Calls(1, map[0 := 0], map[], false)
  {
    hide BeginUdp, WellFormedDomain;
  }

  lemma StartFails(s: State)
    requires s.starting && s.stop.NotStopping? && Idle(s)
    ensures Enabled(s, StartedE(false)) && Step(s, StartedE(false)) == s.(starting := false, started := false, udpOpen := false)
    ensures Unheld(s.(starting := false, started := false, udpOpen := false))
  {
  }

  lemma FailedRun(run: seq<State>, es: seq<Event>)
    requires |es| == 3 && |run| == 4 && run[0] == INITIAL && es[0] == StartE && run[1] == STARTING
    requires Enabled(run[1], es[1]) && run[2] == Step(run[1], es[1]) && Enabled(run[2], es[2]) && run[3] == Step(run[2], es[2])
    ensures IsRun(run, es)
  {
    assert Enabled(INITIAL, StartE) && Step(INITIAL, StartE) == run[1];
    hide Enabled, Step;
    forall n | 0 <= n < |es| ensures Enabled(run[n], es[n]) && run[n + 1] == Step(run[n], es[n]) {
      assert n == 0 || n == 1 || n == 2;
    }
  }

  // ----- The indexes and the timers

  /** In every reachable state the two indexes are in one-to-one correspondence, within their bounds. */
  lemma IndexesAgree(run: seq<State>, es: seq<Event>, n: nat)
    requires IsRun(run, es) && n < |run|
    ensures var t := run[n].t;
            && t.byId.Values == t.byDomain.Values && |t.byId| == |t.byDomain| <= MAX_QUERIES
            && (forall i :: i in t.byId ==> t.byId[i] in t.queries && t.queries[t.byId[i]].txid == i != 0
                                            && |t.queries[t.byId[i]].calls| <= MAX_CALLBACKS)
            && (forall d :: d in t.byDomain ==> t.byDomain[d] in t.queries && t.queries[t.byDomain[d]].domain == d)
  {
    EveryRun(run, es, n);
    var t := run[n].t;
    assert Indexed(t);
    Bijection(t);
    hide IsRun, Watch, Queue, Placed;
    forall i | i in t.byId ensures t.byId[i] in t.queries && t.queries[t.byId[i]].txid == i != 0
                                   && |t.queries[t.byId[i]].calls| <= MAX_CALLBACKS {
      assert IdOk(t, i) && Fit(t.queries[t.byId[i]]);
    }
    forall d | d in t.byDomain ensures t.byDomain[d] in t.queries && t.queries[t.byDomain[d]].domain == d {
      assert DomainOk(t, d);
    }
  }

  /**
   No query is stranded: one that the handler at work is not about to deal with has its own
   timer scheduled or queued under its current id, unless exactly that timer was discarded.
   */
  lemma NotStranded(run: seq<State>, es: seq<Event>, n: nat, q: Qid)
    requires IsRun(run, es) && n < |run| && Live(run[n].t, q) && !Named(run[n].tasks, q)
    ensures var t := run[n].t;
            && t.queries[q].timer.Some?
            && (t.queries[q].timer.value in t.timers <==> t.queries[q].timer.value !in t.discarded)
            && (t.queries[q].timer.value in t.timers ==> t.timers[t.queries[q].timer.value].txid == t.queries[q].txid)
  {
    EveryRun(run, es, n);
    hide IsRun, Queue, Placed, Indexed, Named;
    assert Watched(run[n].t, q);
  }

  // ----- A query that is stranded

  ghost predicate Reached(s: State) {
    exists run: seq<State>, es: seq<Event> :: IsRun(run, es) && run[|es|] == s
  }

  lemma Go(s: State, e: Event)
    requires Reached(s) && Enabled(s, e)
    ensures Reached(Step(s, e))
  {
    hide Enabled, Step;
    var run: seq<State>, es: seq<Event> :| IsRun(run, es) && run[|es|] == s;
    var more, events := run + [Step(s, e)], es + [e];
    forall n | 0 <= n < |events| ensures Enabled(more[n], events[n]) && more[n + 1] == Step(more[n], events[n]) {
      if n < |es| {
        assert more[n] == run[n] && more[n + 1] == run[n + 1] && events[n] == es[n];
      }
    }
    assert IsRun(more, events) && more[|events|] == Step(s, e);
  }

  const STARTED := STARTING.(starting := false, udpOpen := true)

  /** One query, number 0 under id 1, asked for once and watched by timer 0. */
  function Asked(d: bytes, timers: map<TimerId, Timer>, discarded: set<TimerId>): Table {
    Table(map[0 := Query(d, 1, TYPE_A, false, false, 1, {0}, Some(0), Tries(1, 0, 0, 0))], map[1 := 0], map[d := 0], timers, {0}, discarded)
  }

  function Waiting(d: bytes, timers: map<TimerId, Timer>, discarded: set<TimerId>): State {
    STARTED.(t := Asked(d, timers, discarded), calls := Calls(1, map[0 := 0], map[], false))
  }

  lemma Starts()
    ensures Reached(STARTED)
  {
    hide Reached;
    assert Reached(INITIAL) by { Begins(); }
    assert Step(INITIAL, StartE) == STARTING;
    Go(INITIAL, StartE);
    assert Step(STARTING, StartedE(true)) == STARTED;
    Go(STARTING, StartedE(true));
  }

  lemma Begins()
    ensures Reached(INITIAL)
  {
    assert IsRun([INITIAL], []) && [INITIAL][0] == INITIAL;
  }

  lemma Asks(d: bytes)
    requires WellFormedDomain(d)
    ensures Reached(Waiting(d, map[0 := Timer(1, false)], {}))
  {
    hide Reached, WellFormedDomain;
    Starts();
    var e := ResolveE(d, 0, 1, false, Some(0));
    assert Enabled(STARTED, e);
    AskedState(d);
    Go(STARTED, e);
  }

  lemma AskedState(d: bytes)
    requires WellFormedDomain(d)
    ensures Resolve(STARTED, d, 0, 1, false, Some(0)) == Waiting(d, map[0 := Timer(1, false)], {})
  {
    hide WellFormedDomain;
    var o := Open(STARTED, d, 0, 1, false);
    assert o.t == Table(map[0 := Fresh(d, 1, false, 0)], map[1 := 0], map[d := 0], map[], {}, {});
    assert BeginUdp(o.t, 0, Some(0)) == Asked(d, map[0 := Timer(1, false)], {});
  }

  /** The timer is claimed, its post fails, and the query stays pending with no timer to come under its id. */
  lemma DiscardStrands(d: bytes) returns (run: seq<State>, es: seq<Event>)
    requires WellFormedDomain(d)
    ensures IsRun(run, es)
    ensures var s := run[|es|];
            && Live(s.t, 0) && !Named(s.tasks, 0) && s.t.queries[0].timer == Some(0) && 0 in s.t.discarded
            && (forall x :: x in s.t.timers ==> s.t.timers[x].txid != s.t.queries[0].txid)
            && 0 < s.calls.next && 0 !in s.calls.answers
  {
    hide Reached, WellFormedDomain;
    Asks(d);
    Claimed(d);
    var s := Waiting(d, map[], {0});
    assert Live(s.t, 0) && !Named(s.tasks, 0);
    run, es := RunTo(s);
  }

  lemma RunTo(s: State) returns (run: seq<State>, es: seq<Event>)
    requires Reached(s)
    ensures IsRun(run, es) && run[|es|] == s
  {
    run, es :| IsRun(run, es) && run[|es|] == s;
  }

  lemma Claimed(d: bytes)
    requires Reached(Waiting(d, map[0 := Timer(1, false)], {}))
    ensures Reached(Waiting(d, map[], {0}))
  {
    hide Reached;
    var s, t := Waiting(d, map[0 := Timer(1, false)], {}), Waiting(d, map[0 := Timer(1, true)], {});
    assert Step(s, ClaimE(0)) == t;
    Go(s, ClaimE(0));
    assert Step(t, DiscardE(0)) == Waiting(d, map[], {0});
    Go(t, DiscardE(0));
  }

  /** A pending query can always be printed, and the query of a task is still in the index: those branches are dead. */
  lemma DeadBranches(run: seq<State>, es: seq<Event>, n: nat)
    requires IsRun(run, es) && n < |run|
    ensures forall q :: Live(run[n].t, q) ==> WellFormedDomain(run[n].t.queries[q].domain)
    ensures forall k :: k in run[n].tasks ==> Live(run[n].t, k.q) && (k.Retry? || k.Aaaa? ==> k.id in run[n].t.byId)
  {
    EveryRun(run, es, n);
    var t := run[n].t;
    hide IsRun, Placed, Indexed, Watch, WellFormedDomain, Clock, Watched;
    assert forall q :: Live(t, q) ==> Fit(t.queries[q]);
    forall k | k in run[n].tasks ensures Live(t, k.q) && (k.Retry? || k.Aaaa? ==> k.id in t.byId) {
      assert TaskOk(t, k);
    }
  }

  // ----- The budget

  /** At most three UDP attempts and one TCP attempt per record type, eight in all. */
  lemma Budget(run: seq<State>, es: seq<Event>, n: nat, q: Qid)
    requires IsRun(run, es) && n < |run| && Live(run[n].t, q)
    ensures var x := run[n].t.queries[q].tries;
            && x.udpA <= 3 && x.tcpA <= 1 && x.udpAAAA <= 3 && x.tcpAAAA <= 1
            && x.udpA + x.tcpA + x.udpAAAA + x.tcpAAAA + Left(run[n].t.queries[q]) <= 8
  {
    EveryRun(run, es, n);
    hide IsRun, Placed, Indexed, Watch, Queue, WellFormedDomain, Clock, Live;
    assert Fit(run[n].t.queries[q]);
  }

  /** Every result or timeout that is not ignored gives its query one task. */
  lemma ResultGivesTask(s: State, id: u16, r: DnsResult, from: Source)
    requires !Ignored(s.t, id, from)
    ensures var u := OnQueryResult(s, id, r, from);
            |u.tasks| == 1 && u.tasks[0].q == s.t.byId[id] && !u.tasks[0].TcpStart?
  {
    hide CancelTimer;
  }

  /** The query is over, or has less left. */
  ghost predicate Lowers(t: Table, u: Table, q: Qid) {
    q in t.queries && Live(u, q) ==> Left(u.queries[q]) < Left(t.queries[q])
  }

  /** And every such task ends the query or uses up part of its budget. */
  lemma TaskCosts(s: State, id: u16, timer: Option<TimerId>, ok: bool)
    requires s.tasks != [] && !s.tasks[0].TcpStart?
    requires Inv(s) && Enabled(s, TaskE(id, timer, ok))
    ensures Lowers(s.t, Step(s, TaskE(id, timer, ok)).t, s.tasks[0].q)
  {
    hide Sound, Watch, Queue, Placed, Nearly, Fit, Perform, NewId, NewTimer, Live, TaskOk, Life;
    InvParts(s);
    HeadNearly(s.t, s.tasks);
    LiveKnown(s.t);
    PerformCosts(s.(tasks := s.tasks[1..]), s.tasks[0], id, timer, ok);
  }

  lemma PerformCosts(s: State, k: Task, id: u16, timer: Option<TimerId>, ok: bool)
    requires Nearly(s.t, s.tasks, k.q) && TaskOk(s.t, k) && k.q in s.t.queries && Fit(s.t.queries[k.q]) && !k.TcpStart?
    requires Placed(s.t, s.calls, s.firing) && s.firing == {}
    requires NewId(s.t.byId - {s.t.queries[k.q].txid}, id) && NewTimer(s.t, timer)
    ensures var u := Perform(s, k, id, timer, ok).t; Live(u, k.q) ==> Left(u.queries[k.q]) < Left(s.t.queries[k.q])
  {
    TaskFacts(s.t, k);
    hide Nearly, Fit, Orderly, Placed, Begin, DoTcp, DoFinish, Rekey, ToAaaa, Live, Left, TaskOk;
    match k
    case Retry(q, was) => RetryCosts(s, k, id, timer);
    case Aaaa(q, was) => AaaaCosts(s, k, id, timer);
    case Tcp(q) => TcpCosts(s, q, timer);
    case Finish(q, a) => FinishParts(s, q, a);
  }

  lemma RetryCosts(s: State, k: Task, id: u16, timer: Option<TimerId>)
    requires Nearly(s.t, s.tasks, k.q) && TaskOk(s.t, k) && Fit(s.t.queries[k.q]) && k.Retry?
    requires NewId(s.t.byId - {s.t.queries[k.q].txid}, id) && NewTimer(s.t, timer)
    ensures var u := Begin(s.(t := Rekey(s.t, k.q, id)), k.q, timer).t; Live(u, k.q) ==> Left(u.queries[k.q]) < Left(s.t.queries[k.q])
  {
    var q := k.q;
    RekeyOthers(s.t, q, id);
    var v := Rekey(s.t, q, id);
    BeginOthers(v, q, timer);
    if Live(BeginUdp(v, q, timer), q) {
      RetryLeft(s.t.queries[q], BeginUdp(v, q, timer).queries[q]);
    }
    hide Nearly, Indexed, Clock, Others, TaskOk, Fit, WellFormedDomain, Rekey, BeginUdp, Watched, Left, TriedUdp;
    CalmBegin(s.(t := v), q, timer);
  }

  lemma CalmBegin(s: State, q: Qid, timer: Option<TimerId>)
    requires q in s.t.queries && q in BeginUdp(s.t, q, timer).queries
    ensures var u, v := BeginUdp(s.t, q, timer), Begin(s, q, timer).t;
            q in v.queries && Live(v, q) == Live(u, q) && Left(v.queries[q]) == Left(u.queries[q])
  {
    hide BeginUdp, WellFormedDomain, Answer;
  }

  lemma AaaaCosts(s: State, k: Task, id: u16, timer: Option<TimerId>)
    requires Nearly(s.t, s.tasks, k.q) && TaskOk(s.t, k) && Fit(s.t.queries[k.q]) && k.Aaaa?
    requires NewId(s.t.byId - {s.t.queries[k.q].txid}, id) && NewTimer(s.t, timer)
    ensures var u := Begin(s.(t := Rekey(ToAaaa(s.t, k.q), k.q, id)), k.q, timer).t;
            Live(u, k.q) ==> Left(u.queries[k.q]) < Left(s.t.queries[k.q])
  {
    var q := k.q;
    PutOthers(s.t, q, ToAaaa(s.t, q).queries[q]);
    RekeyOthers(ToAaaa(s.t, q), q, id);
    var v := Rekey(ToAaaa(s.t, q), q, id);
    BeginOthers(v, q, timer);
    if Live(BeginUdp(v, q, timer), q) {
      AaaaLeft(s.t.queries[q], BeginUdp(v, q, timer).queries[q]);
    }
    hide Nearly, Indexed, Clock, Others, TaskOk, Fit, WellFormedDomain, Rekey, BeginUdp, Watched, Left, TriedUdp;
    CalmBegin(s.(t := v), q, timer);
  }

  lemma TcpCosts(s: State, q: Qid, timer: Option<TimerId>)
    requires Nearly(s.t, s.tasks, q) && Live(s.t, q) && !s.t.queries[q].viaTcp && Fit(s.t.queries[q]) && NewTimer(s.t, timer)
    ensures q in DoTcp(s, q, timer).t.queries && Left(DoTcp(s, q, timer).t.queries[q]) < Left(s.t.queries[q])
  {
    hide Nearly, Indexed, Clock, Others, Arm, Fit, WellFormedDomain, TriedTcp, Watched;
    NearlySound(s.t, s.tasks, q);
    TcpFit(s.t.queries[q], timer);
    TcpWithin(s.t.queries[q]);
    var v := Put(s.t, q, TriedTcp(s.t.queries[q]));
    PutOthers(s.t, q, v.queries[q]);
    ArmOthers(v, q, timer);
  }

  lemma TcpWithin(x: Query)
    requires Fit(x) && !x.viaTcp
    ensures Left(TriedTcp(x)) < Left(x)
  {
    hide WellFormedDomain;
    TcpLeft(x);
  }

  // ----- Nothing else touches a budget

  ghost predicate SameLeft(t: Table, u: Table, q: Qid) {
    Live(t, q) && Live(u, q) ==> Left(u.queries[q]) == Left(t.queries[q])
  }

  lemma OthersLeft(t: Table, u: Table, p: Qid, q: Qid)
    requires Others(t, u, p) && p != q
    ensures SameLeft(t, u, q)
  {
    hide Watched;
  }

  lemma BeginOthersToo(s: State, q: Qid, timer: Option<TimerId>)
    requires Indexed(s.t) && Clock(s.t) && Live(s.t, q) && NewTimer(s.t, timer)
    ensures Others(s.t, Begin(s, q, timer).t, q)
  {
    hide Indexed, Clock, WellFormedDomain, Watched, Others, BeginUdp, Answer;
    var u := BeginUdp(s.t, q, timer);
    BeginOthers(s.t, q, timer);
    if !(WellFormedDomain(s.t.queries[q].domain) && timer.Some?) {
      PutOthers(u, q, u.queries[q].(calls := {}));
      OthersAll(s.t, u, Put(u, q, u.queries[q].(calls := {})), q);
    }
  }

  lemma ResolveLeft(s: State, d: bytes, p: Qid, id: u16, aaaa: bool, timer: Option<TimerId>, q: Qid)
    requires Orderly(s.t, s.tasks) && p !in s.t.queries && NewId(s.t.byId, id) && NewTimer(s.t, timer)
    ensures SameLeft(s.t, Resolve(s, d, p, id, aaaa, timer).t, q)
  {
    hide Orderly, Begin, Others, Named, Indexed, Clock, Answer, Waits, Attach, Left;
    LiveKnown(s.t);
    AttachLeft(s, d, q);
    if !s.stopping && s.started && d !in s.t.byDomain && |s.t.byDomain| < MAX_QUERIES {
      var o := Open(s, d, p, id, aaaa);
      OpenTable(s.t, s.tasks, p, Fresh(d, id, aaaa, s.calls.next));
      BeginOthersToo(o, p, timer);
      OthersAll(s.t, o.t, Begin(o, p, timer).t, p);
      if q != p {
        OthersLeft(s.t, Begin(o, p, timer).t, p, q);
      }
    } else if d in s.t.byDomain {
      DomainLive(s.t, s.tasks, d);
    }
  }

  lemma AttachLeft(s: State, d: bytes, q: Qid)
    ensures d in s.t.byDomain && s.t.byDomain[d] in s.t.queries ==> SameLeft(s.t, Attach(s, d).t, q)
  {
    hide Answer;
  }

  lemma ResultLeft(s: State, id: u16, r: DnsResult, from: Source, q: Qid)
    ensures SameLeft(s.t, OnQueryResult(s, id, r, from).t, q)
  {
    hide Decide;
    if !Ignored(s.t, id, from) {
      CancelQueries(s.t, s.t.byId[id]);
      hide CancelTimer;
    }
  }

  lemma TaskLeft(s: State, id: u16, timer: Option<TimerId>, ok: bool, q: Qid)
    requires s.tasks != [] && s.tasks[0].q in s.t.queries && s.tasks[0].q != q
    requires Orderly(s.t, s.tasks) && Enabled(s, TaskE(id, timer, ok))
    ensures SameLeft(s.t, Perform(s.(tasks := s.tasks[1..]), s.tasks[0], id, timer, ok).t, q)
  {
    hide Orderly, Perform, Nearly, Fit, TaskOk, Live, Others, NewId, NewTimer;
    HeadNearly(s.t, s.tasks);
    LiveKnown(s.t);
    PerformOthers(s.(tasks := s.tasks[1..]), s.tasks[0], id, timer, ok);
    OthersLeft(s.t, Perform(s.(tasks := s.tasks[1..]), s.tasks[0], id, timer, ok).t, s.tasks[0].q, q);
  }

  lemma PerformOthers(s: State, k: Task, id: u16, timer: Option<TimerId>, ok: bool)
    requires Nearly(s.t, s.tasks, k.q) && TaskOk(s.t, k) && k.q in s.t.queries && Fit(s.t.queries[k.q])
    requires NewId(s.t.byId - {s.t.queries[k.q].txid}, id) && NewTimer(s.t, timer)
    ensures Others(s.t, Perform(s, k, id, timer, ok).t, k.q)
  {
    hide Nearly, Fit, Begin, Rekey, ToAaaa, DoTcp, DoFinish, TaskOk, Others, Indexed, Clock, Live, NewId;
    NearlySound(s.t, s.tasks, k.q);
    TaskFacts(s.t, k);
    OthersAll(s.t, s.t, s.t, k.q);
    RekeyKeeps(s.t, k.q, id);
    match k
    case Retry(q, was) => RetryOthers(s, q, id, timer);
    case Aaaa(q, was) => AaaaOthers(s, q, id, timer);
    case Tcp(q) => DoTcpOthers(s, q, timer);
    case TcpStart(q) =>
    case Finish(q, a) => DoFinishOthers(s, q, a);
  }

  lemma RetryOthers(s: State, q: Qid, id: u16, timer: Option<TimerId>)
    requires Indexed(s.t) && Clock(s.t) && Live(s.t, q) && NewId(s.t.byId - {s.t.queries[q].txid}, id) && NewTimer(s.t, timer)
    ensures Others(s.t, Begin(s.(t := Rekey(s.t, q, id)), q, timer).t, q)
  {
    hide Begin, Rekey, Others, Indexed, Clock, Live;
    LiveKnown(s.t);
    RekeyKeeps(s.t, q, id);
    var u := Rekey(s.t, q, id);
    RekeyOthers(s.t, q, id);
    BeginOthersToo(s.(t := u), q, timer);
    OthersAll(s.t, u, Begin(s.(t := u), q, timer).t, q);
  }

  lemma AaaaOthers(s: State, q: Qid, id: u16, timer: Option<TimerId>)
    requires Indexed(s.t) && Clock(s.t) && Live(s.t, q) && NewId(s.t.byId - {s.t.queries[q].txid}, id) && NewTimer(s.t, timer)
    ensures Others(s.t, Begin(s.(t := Rekey(ToAaaa(s.t, q), q, id)), q, timer).t, q)
  {
    hide Begin, Rekey, Others, Indexed, Clock, Live;
    LiveKnown(s.t);
    RekeyKeeps(s.t, q, id);
    var v := ToAaaa(s.t, q);
    PutOthers(s.t, q, v.queries[q]);
    var u := Rekey(v, q, id);
    RekeyOthers(v, q, id);
    OthersAll(s.t, v, u, q);
    BeginOthersToo(s.(t := u), q, timer);
    OthersAll(s.t, u, Begin(s.(t := u), q, timer).t, q);
  }

  lemma DoTcpOthers(s: State, q: Qid, timer: Option<TimerId>)
    requires Indexed(s.t) && Clock(s.t) && Live(s.t, q) && NewTimer(s.t, timer)
    ensures Others(s.t, DoTcp(s, q, timer).t, q)
  {
    hide Indexed, Clock, Others, Arm, TriedTcp, WellFormedDomain;
    OthersAll(s.t, s.t, s.t, q);
    TcpOthers(s.t, q, timer);
  }

  lemma DoFinishOthers(s: State, q: Qid, a: Option<bytes>)
    requires Indexed(s.t) && Clock(s.t) && Live(s.t, q)
    ensures Others(s.t, DoFinish(s, q, a).t, q)
  {
    hide Indexed, Clock, Others, CancelTimer, Unregister;
    FinishOthers(s.t, q);
  }

  lemma TcpOthers(t: Table, q: Qid, timer: Option<TimerId>)
    requires Indexed(t) && Clock(t) && Live(t, q) && NewTimer(t, timer)
    ensures Others(t, Arm(Put(t, q, TriedTcp(t.queries[q])), q, timer), q)
  {
    hide Indexed, Clock, Others, Arm, Watched;
    var v := Put(t, q, TriedTcp(t.queries[q]));
    PutOthers(t, q, TriedTcp(t.queries[q]));
    ArmOthers(v, q, timer);
    OthersAll(t, v, Arm(v, q, timer), q);
  }

  lemma FinishOthers(t: Table, q: Qid)
    requires Indexed(t) && Clock(t) && Live(t, q)
    ensures var u := Unregister(CancelTimer(t, q), q);
            q in u.queries && Others(t, Put(u, q, u.queries[q].(calls := {})), q)
  {
    hide Indexed, Clock, Others, CancelTimer, Unregister, Watched;
    var v := CancelTimer(t, q);
    CancelOthers(t, q);
    var u := Unregister(v, q);
    UnregisterOthers(v, q);
    UnregisterSame(v, q);
    OthersAll(t, v, u, q);
    PutOthers(u, q, u.queries[q].(calls := {}));
    OthersAll(t, u, Put(u, q, u.queries[q].(calls := {})), q);
  }

  /** Steps that are not a task of this query leave its budget alone. */
  lemma BudgetStays(s: State, e: Event, q: Qid)
    requires Inv(s) && Enabled(s, e) && !(e.TaskE? && s.tasks[0].q == q)
    ensures SameLeft(s.t, Step(s, e).t, q)
  {
    hide Inv, Orderly, Placed, Resolve, OnQueryResult, Perform, Answer, AllUdp, NewId, NewTimer, Left;
    InvParts(s);
    match e
    case ResolveE(d, p, id, aaaa, timer) => ResolveLeft(s, d, p, id, aaaa, timer, q);
    case ResultE(id, r, tcp) => ResultLeft(s, id, r, if tcp then FromTcp else FromUdp, q);
    case TimerE(x) => ResultLeft(Timers(s, s.t.timers - {x}), s.t.timers[x].txid, INVALID, FromTimer, q);
    case TaskE(id, timer, ok) => TaskLeft(s, id, timer, ok, q);
    case _ =>
  }
}
