/** The budget of a query over whole runs: how many results and timeouts one query can take. */
module DnsBudget {
  import opened Bytes
  import opened DnsNames
  import opened DnsMessages
  import opened DnsTable
  import opened DnsTableProofs
  import opened DnsResolver
  import opened DnsResolverProofs
  import opened DnsResolverTheorems
  import opened DnsAnswers

  /** A result or a timeout that is not ignored, for this query. */
  ghost predicate Accepts(s: State, e: Event, q: Qid) {
    match e
    case ResultE(id, _, tcp) => Names(s.t, id, q) && !Ignored(s.t, id, if tcp then FromTcp else FromUdp)
    case TimerE(x) => x in s.t.timers && Names(s.t, s.t.timers[x].txid, q)
    case _ => false
  }

  /** How many of them there were in the first n steps. */
  ghost function Number(run: seq<State>, es: seq<Event>, n: nat, q: Qid): nat
    requires n <= |es| < |run|
  {
    if n == 0 then 0 else Number(run, es, n - 1, q) + One(Accepts(run[n - 1], es[n - 1], q))
  }

  /** A task that will end the query or cost it part of its budget. */
  ghost predicate Owes(tasks: seq<Task>, q: Qid) {
    exists k :: k in tasks && k.q == q && !k.TcpStart?
  }

  ghost predicate Spent(s: State, q: Qid, count: nat) {
    if Live(s.t, q) then count + Left(s.t.queries[q]) <= (if Owes(s.tasks, q) then 8 else 7)
    else count <= 8 && (count > 0 ==> q in s.heard)
  }

  // ----- Where queries come from and where they go

  lemma SameLive(t: Table, u: Table, p: Qid, q: Qid)
    requires Others(t, u, p) && q != p
    ensures Live(u, q) == Live(t, q)
  {
    hide Watched, Live;
  }

  lemma AttachLive(s: State, d: bytes, q: Qid)
    ensures d in s.t.byDomain && s.t.byDomain[d] in s.t.queries ==> Live(Attach(s, d).t, q) == Live(s.t, q)
  {
    hide Answer;
  }

  /** Asking makes no query but the new one. */
  lemma ResolveLive(s: State, d: bytes, p: Qid, id: u16, aaaa: bool, timer: Option<TimerId>, q: Qid)
    requires Orderly(s.t, s.tasks) && p !in s.t.queries && NewId(s.t.byId, id) && NewTimer(s.t, timer)
    ensures var u := Resolve(s, d, p, id, aaaa, timer).t;
            && (q != p ==> Live(u, q) == Live(s.t, q))
            && (q == p && Live(u, q) ==> Left(u.queries[q]) <= 7)
  {
    hide Orderly, Begin, Open, Answer, Attach, Left, Live;
    LiveKnown(s.t);
    UnknownDead(s.t, p);
    AttachLive(s, d, q);
    if !s.stopping && s.started && d !in s.t.byDomain && |s.t.byDomain| < MAX_QUERIES {
      OpenLive(s, d, p, id, aaaa, timer, q);
    } else if d in s.t.byDomain {
      DomainLive(s.t, s.tasks, d);
      AttachLive(s, d, p);
    }
  }

  lemma UnknownDead(t: Table, q: Qid)
    ensures q !in t.queries ==> !Live(t, q)
  {
  }

  lemma OpenLive(s: State, d: bytes, p: Qid, id: u16, aaaa: bool, timer: Option<TimerId>, q: Qid)
    requires Orderly(s.t, s.tasks) && p !in s.t.queries && NewId(s.t.byId, id) && NewTimer(s.t, timer)
    requires d !in s.t.byDomain && |s.t.byDomain| < MAX_QUERIES
    ensures var u := Begin(Open(s, d, p, id, aaaa), p, timer).t;
            && (q != p ==> Live(u, q) == Live(s.t, q))
            && (q == p && Live(u, q) ==> q in u.queries && Left(u.queries[q]) <= 7)
  {
    hide Orderly, Begin, Others, Named, Indexed, Clock, Waits, Left, Live;
    var x := Fresh(d, id, aaaa, s.calls.next);
    var o := Open(s, d, p, id, aaaa);
    OpenTable(s.t, s.tasks, p, x);
    var u := Begin(o, p, timer).t;
    LiveKnown(u);
    BeginOthersToo(o, p, timer);
    OthersAll(s.t, o.t, u, p);
    BeginLive(o, p, timer);
    if q != p {
      SameLive(s.t, u, p, q);
    } else if Live(u, p) {
      FreshLeft(x, timer);
    }
  }

  lemma FreshLeft(x: Query, timer: Option<TimerId>)
    requires x.attempts == 0
    ensures Left(TriedUdp(x).(timer := timer)) <= 7
  {
  }

  /** A begun query goes on as it should, or is heard of. */
  lemma BeginLive(s: State, q: Qid, timer: Option<TimerId>)
    requires Indexed(s.t) && Clock(s.t) && Live(s.t, q) && NewTimer(s.t, timer)
    ensures var u := Begin(s, q, timer);
            && (Live(u.t, q) ==> u.t.queries[q] == TriedUdp(s.t.queries[q]).(timer := timer))
            && (!Live(u.t, q) ==> q in u.heard)
  {
    hide Indexed, Clock, Others, Watched, WellFormedDomain, BeginUdp, TriedUdp, Answer, Live;
    LiveKnown(s.t);
    BeginOthers(s.t, q, timer);
    var u := BeginUdp(s.t, q, timer);
    if !(WellFormedDomain(s.t.queries[q].domain) && timer.Some?) {
      PutOthers(u, q, u.queries[q].(calls := {}));
    }
  }

  lemma TaskHeard(s: State, k: Task, id: u16, timer: Option<TimerId>, ok: bool)
    requires Nearly(s.t, s.tasks, k.q) && TaskOk(s.t, k) && k.q in s.t.queries && Placed(s.t, s.calls, {})
    requires NewId(s.t.byId - {s.t.queries[k.q].txid}, id) && NewTimer(s.t, timer)
    ensures !Live(Perform(s, k, id, timer, ok).t, k.q) ==> k.q in Perform(s, k, id, timer, ok).heard
  {
    hide Nearly, TaskOk, Begin, DoTcp, DoFinish, Rekey, ToAaaa, Indexed, Clock, Live, NewId, Others, Placed;
    NearlySound(s.t, s.tasks, k.q);
    TaskFacts(s.t, k);
    RekeyKeeps(s.t, k.q, id);
    match k
    case Retry(q, was) =>
      RekeyLives(s.t, q, id);
      BeginLive(s.(t := Rekey(s.t, q, id)), q, timer);
    case Aaaa(q, was) =>
      AaaaLives(s.t, q, id);
      BeginLive(s.(t := Rekey(ToAaaa(s.t, q), q, id)), q, timer);
    case Tcp(q) => TcpLives(s, q, timer);
    case TcpStart(q) =>
    case Finish(q, a) => FinishHeard(s, q, a);
  }

  lemma FinishHeard(s: State, q: Qid, a: Option<bytes>)
    requires q in s.t.queries
    ensures q in DoFinish(s, q, a).heard
  {
    hide CancelTimer, Unregister;
  }

  lemma RekeyLives(t: Table, q: Qid, id: u16)
    requires Indexed(t) && Clock(t) && Live(t, q) && NewId(t.byId - {t.queries[q].txid}, id)
    ensures var u := Rekey(t, q, id); Indexed(u) && Clock(u) && Live(u, q) && u.used == t.used
  {
    hide Indexed, Clock, Others;
    RekeyOthers(t, q, id);
  }

  lemma AaaaLives(t: Table, q: Qid, id: u16)
    requires Indexed(t) && Clock(t) && Live(t, q) && NewId(t.byId - {t.queries[q].txid}, id)
    ensures q in ToAaaa(t, q).queries
    ensures var u := Rekey(ToAaaa(t, q), q, id); Indexed(u) && Clock(u) && Live(u, q) && u.used == t.used
  {
    hide Indexed, Clock, Others;
    var v := ToAaaa(t, q);
    PutOthers(t, q, v.queries[q]);
    RekeyOthers(v, q, id);
  }

  lemma TcpLives(s: State, q: Qid, timer: Option<TimerId>)
    requires Indexed(s.t) && Clock(s.t) && Live(s.t, q) && NewTimer(s.t, timer)
    ensures Live(DoTcp(s, q, timer).t, q)
  {
    hide Indexed, Clock, Others, Arm, TriedTcp, WellFormedDomain, Live;
    LiveKnown(s.t);
    TcpTried(s.t.queries[q]);
    var v := Put(s.t, q, TriedTcp(s.t.queries[q]));
    PutOthers(s.t, q, v.queries[q]);
    ArmOthers(v, q, timer);
  }

  lemma TcpTried(x: Query)
    ensures var y := TriedTcp(x); y.domain == x.domain && y.txid == x.txid && y.timer == x.timer
  {
  }

  lemma ResultLive(s: State, id: u16, r: DnsResult, from: Source, q: Qid)
    ensures Live(OnQueryResult(s, id, r, from).t, q) == Live(s.t, q)
  {
    hide Decide;
    if !Ignored(s.t, id, from) {
      CancelQueries(s.t, s.t.byId[id]);
      hide CancelTimer;
    }
  }

  /** The steps that can make or end this query. */
  predicate About(s: State, e: Event, q: Qid) {
    (e.ResolveE? && e.q == q) || (e.TaskE? && s.tasks != [] && s.tasks[0].q == q) || e.CollectE?
  }

  lemma LiveStays(s: State, e: Event, q: Qid)
    requires Inv(s) && Enabled(s, e) && !About(s, e, q)
    ensures Live(Step(s, e).t, q) == Live(s.t, q)
  {
    hide Inv, Orderly, Placed, Resolve, OnQueryResult, Perform, Answer, AllUdp, NewId, NewTimer;
    InvParts(s);
    match e
    case ResolveE(d, p, id, aaaa, timer) => ResolveLive(s, d, p, id, aaaa, timer, q);
    case ResultE(id, r, tcp) => ResultLive(s, id, r, if tcp then FromTcp else FromUdp, q);
    case TimerE(x) => ResultLive(Timers(s, s.t.timers - {x}), s.t.timers[x].txid, INVALID, FromTimer, q);
    case TaskE(id, timer, ok) => HeadLive(s, id, timer, ok, q);
    case _ =>
  }

  lemma HeadLive(s: State, id: u16, timer: Option<TimerId>, ok: bool, q: Qid)
    requires s.tasks != [] && s.tasks[0].q in s.t.queries && s.tasks[0].q != q
    requires Orderly(s.t, s.tasks) && Enabled(s, TaskE(id, timer, ok))
    ensures Live(Perform(s.(tasks := s.tasks[1..]), s.tasks[0], id, timer, ok).t, q) == Live(s.t, q)
  {
    hide Orderly, Perform, Nearly, Fit, TaskOk, Live, Others, NewId, NewTimer;
    HeadNearly(s.t, s.tasks);
    LiveKnown(s.t);
    PerformOthers(s.(tasks := s.tasks[1..]), s.tasks[0], id, timer, ok);
    SameLive(s.t, Perform(s.(tasks := s.tasks[1..]), s.tasks[0], id, timer, ok).t, s.tasks[0].q, q);
  }

  /** A query that ends is heard of. */
  lemma EndsHeard(s: State, e: Event, q: Qid)
    requires Inv(s) && Enabled(s, e) && Live(s.t, q) && !Live(Step(s, e).t, q)
    ensures q in Step(s, e).heard
  {
    hide Inv, Live, Step, Enabled;
    if !About(s, e, q) {
      LiveStays(s, e, q);
    } else if e.TaskE? {
      HeadHeard(s, e);
    } else if e.CollectE? {
      CollectHears(s, e, q);
    } else {
      LiveIsOld(s, e, q);
    }
  }

  lemma LiveIsOld(s: State, e: Event, q: Qid)
    requires Enabled(s, e) && e.ResolveE? && e.q == q
    ensures !Live(s.t, q)
  {
    hide NewId, NewTimer;
  }

  lemma CollectHears(s: State, e: Event, q: Qid)
    requires Enabled(s, e) && e.CollectE? && Live(s.t, q)
    ensures q in Step(s, e).heard
  {
    hide AllCalls, Emptied;
  }

  lemma HeadHeard(s: State, e: Event)
    requires Inv(s) && Enabled(s, e) && e.TaskE? && !Live(Step(s, e).t, s.tasks[0].q)
    ensures s.tasks[0].q in Step(s, e).heard
  {
    hide Inv, Nearly, TaskOk, Fit, Orderly, Placed, Perform, NewId, NewTimer, Live;
    InvParts(s);
    HeadNearly(s.t, s.tasks);
    TaskHeard(s.(tasks := s.tasks[1..]), s.tasks[0], e.id, e.timer, e.ok);
  }

  // ----- One step

  lemma AcceptsLive(s: State, e: Event, q: Qid)
    requires Inv(s) && Enabled(s, e) && Accepts(s, e, q)
    ensures Live(s.t, q) && s.tasks == []
  {
    hide Clock, Watch, Queue, Placed, Life, Fit;
    assert forall id :: Names(s.t, id, q) ==> IdOk(s.t, id);
  }

  lemma AcceptsOwes(s: State, e: Event, q: Qid)
    requires Enabled(s, e) && Accepts(s, e, q)
    ensures Owes(Step(s, e).tasks, q)
  {
    hide CancelTimer;
    if e.ResultE? {
      var from := if e.tcp then FromTcp else FromUdp;
      ResultGivesTask(s, e.id, e.r, from);
      var u := OnQueryResult(s, e.id, e.r, from);
      assert u.tasks[0] in u.tasks;
    } else {
      var t := Timers(s, s.t.timers - {e.x});
      ResultGivesTask(t, s.t.timers[e.x].txid, INVALID, FromTimer);
      var u := OnQueryResult(t, s.t.timers[e.x].txid, INVALID, FromTimer);
      assert u.tasks[0] in u.tasks;
    }
  }

  lemma OwesStays(s: State, e: Event, q: Qid)
    requires Inv(s) && Told(s) && Enabled(s, e) && !About(s, e, q) && Owes(s.tasks, q)
    ensures Owes(Step(s, e).tasks, q)
  {
    hide Inv, Told, Step, Enabled;
    var k :| k in s.tasks && k.q == q && !k.TcpStart?;
    NotHead(s, e);
    TaskStays(s, e, k);
  }

  lemma NotHead(s: State, e: Event)
    requires Enabled(s, e)
    ensures e.TaskE? ==> s.tasks != []
  {
    hide NewId, NewTimer;
  }

  /** The task at the front is the only one of its query. */
  lemma HeadOwes(s: State, e: Event)
    requires Inv(s) && Enabled(s, e) && e.TaskE? && s.tasks[0].TcpStart?
    ensures !Owes(s.tasks, s.tasks[0].q) && Step(s, e).t == s.t
  {
    hide Sound, Watch, Placed, Life, TaskOk, NewId, NewTimer;
    FirstAlone(s.t, s.tasks);
    forall k | k in s.tasks && k.q == s.tasks[0].q ensures k == s.tasks[0] {
      if k != s.tasks[0] {
        Later(s.tasks, k);
      }
    }
  }

  lemma LiveSpent(s: State, e: Event, q: Qid, count: nat)
    requires Inv(s) && Told(s) && Enabled(s, e) && Spent(s, q, count) && Live(s.t, q)
    ensures Spent(Step(s, e), q, count + One(Accepts(s, e, q)))
  {
    hide Inv, Told, Step, Enabled, Live, Left, Owes, Accepts;
    var u := Step(s, e);
    NotHead(s, e);
    if Accepts(s, e, q) {
      AcceptsLive(s, e, q);
      AcceptsOwes(s, e, q);
      NothingOwed(s.tasks, q);
      AcceptsApart(s, e, q);
      BudgetStays(s, e, q);
      LiveStays(s, e, q);
    } else if e.TaskE? && s.tasks != [] && s.tasks[0].q == q {
      HeadSpent(s, e, count);
    } else if Live(u.t, q) {
      BudgetStays(s, e, q);
      if Owes(s.tasks, q) {
        if e.ResolveE? && e.q == q {
          LiveIsOld(s, e, q);
        } else if e.CollectE? {
          CollectEnds(s, e, q);
        } else {
          OwesStays(s, e, q);
        }
      }
    } else {
      EndsHeard(s, e, q);
    }
  }

  lemma CollectEnds(s: State, e: Event, q: Qid)
    requires Enabled(s, e) && e.CollectE?
    ensures !Live(Step(s, e).t, q)
  {
    hide AllCalls, OwnTimers;
  }

  lemma NothingOwed(tasks: seq<Task>, q: Qid)
    requires tasks == []
    ensures !Owes(tasks, q)
  {
  }

  lemma AcceptsApart(s: State, e: Event, q: Qid)
    requires Accepts(s, e, q)
    ensures !About(s, e, q) && !e.TaskE?
  {
  }

  lemma HeadSpent(s: State, e: Event, count: nat)
    requires Enabled(s, e) && e.TaskE? && s.tasks != [] && Inv(s) && Spent(s, s.tasks[0].q, count) && Live(s.t, s.tasks[0].q)
    ensures Spent(Step(s, e), s.tasks[0].q, count)
  {
    hide Inv, Step, Live, Left, Owes, Enabled;
    LiveKnown(s.t);
    var q := s.tasks[0].q;
    if s.tasks[0].TcpStart? {
      HeadOwes(s, e);
    } else {
      HeadCosts(s, e);
    }
    if !Live(Step(s, e).t, q) {
      HeadHeard(s, e);
    }
  }

  lemma HeadCosts(s: State, e: Event)
    requires Enabled(s, e) && e.TaskE? && s.tasks != [] && Inv(s) && !s.tasks[0].TcpStart?
    ensures Lowers(s.t, Step(s, e).t, s.tasks[0].q)
  {
    hide Inv, Step, Enabled, Lowers;
    TaskCosts(s, e.id, e.timer, e.ok);
  }

  lemma DeadSpent(s: State, e: Event, q: Qid, count: nat)
    requires Inv(s) && Told(s) && Enabled(s, e) && Spent(s, q, count) && !Live(s.t, q)
    ensures !Accepts(s, e, q) && Spent(Step(s, e), q, count)
  {
    hide Inv, Told, Step, Enabled, Live, Left, Owes, Accepts;
    if Accepts(s, e, q) {
      AcceptsLive(s, e, q);
    }
    if q in s.heard {
      HeardStays(s, e, q);
    }
    if Live(Step(s, e).t, q) {
      Born(s, e, q);
    }
  }

  /** Only asking makes a query, with at most seven attempts left. */
  lemma Born(s: State, e: Event, q: Qid)
    requires Inv(s) && Enabled(s, e) && !Live(s.t, q) && Live(Step(s, e).t, q)
    ensures q !in s.heard && Left(Step(s, e).t.queries[q]) <= 7
  {
    hide Inv, Live, Left, Step, Enabled;
    if !About(s, e, q) {
      LiveStays(s, e, q);
    } else if e.TaskE? {
      HeadIsLive(s);
    } else if e.CollectE? {
      CollectEnds(s, e, q);
    } else {
      BornLeft(s, e);
    }
  }

  lemma HeadIsLive(s: State)
    requires Inv(s) && s.tasks != []
    ensures Live(s.t, s.tasks[0].q)
  {
    hide Inv, Nearly, TaskOk, Fit, Orderly, Placed, Live;
    InvParts(s);
    HeadNearly(s.t, s.tasks);
  }

  lemma BornLeft(s: State, e: Event)
    requires Inv(s) && Enabled(s, e) && e.ResolveE? && Live(Step(s, e).t, e.q)
    ensures e.q !in s.heard && Left(Step(s, e).t.queries[e.q]) <= 7
  {
    hide Inv, Orderly, Placed, Resolve, NewId, NewTimer, Live, Left;
    InvParts(s);
    ResolveLive(s, e.d, e.q, e.id, e.aaaa, e.timer, e.q);
  }

  lemma StepSpent(s: State, e: Event, q: Qid, count: nat)
    requires Inv(s) && Told(s) && Enabled(s, e) && Spent(s, q, count)
    ensures Spent(Step(s, e), q, count + One(Accepts(s, e, q)))
  {
    hide Inv, Told, Step, Enabled, Live, Spent, Accepts;
    if Live(s.t, q) {
      LiveSpent(s, e, q, count);
    } else {
      DeadSpent(s, e, q, count);
    }
  }

  lemma {:induction false} RunSpent(run: seq<State>, es: seq<Event>, n: nat, q: Qid)
    requires IsRun(run, es) && n < |run|
    ensures Spent(run[n], q, Number(run, es, n, q))
    decreases n
  {
    hide Inv, Told, Step, Enabled, Accepts;
    if n > 0 {
      RunSpent(run, es, n - 1, q);
      EveryRun(run, es, n - 1);
      RunTold(run, es, n - 1);
      hide Spent;
      StepSpent(run[n - 1], es[n - 1], q, Number(run, es, n - 1, q));
    }
  }

  /**
   In every run a query takes at most eight results and timeouts, all record types and transports
   together; while it is pending, at most eight less what it has left.
   */
  lemma FinishesWithinBudget(run: seq<State>, es: seq<Event>, n: nat, q: Qid)
    requires IsRun(run, es) && n < |run|
    ensures Number(run, es, n, q) <= 8
    ensures Live(run[n].t, q) ==> Number(run, es, n, q) + Left(run[n].t.queries[q]) <= 8
    ensures !Live(run[n].t, q) && Number(run, es, n, q) > 0 ==> q in run[n].heard
  {
    hide Step, Enabled, Accepts, Owes, Live, Left;
    LiveKnown(run[n].t);
    RunSpent(run, es, n, q);
  }
}
