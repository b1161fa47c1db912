/**
 No timer is overlooked: while the service runs, every timer of the table whose wake-up was posted
 has a wake-up in the port, a worker that is going to sweep, or a worker whose wait was computed
 from a table that held this timer.
 */
module IocpAttention {
  import opened Bytes
  import opened IocpBooks
  import opened Iocp
  import opened IocpProofs

  /** In the table, and the port took its wake-up. */
  predicate Rung(s: State, i: nat) {
    && i in s.books.ops
    && (|| s.books.ops[i].stage.Armed?
        || (s.books.ops[i].stage.Publishing? && i in s.posters && (s.posters[i] == Unpinning(true) || s.posters[i] == Told(true))))
  }

  /** This worker sweeps the table before it waits again. */
  predicate WillSweep(pc: Pc) {
    pc.Top? || pc.Sweep? || pc.GotNothing? || pc.Woken? || pc.GotOp? || pc.Handling?
  }

  function NapOf(pc: Pc): Wait {
    match pc
    case Swept(n) => n
    case Leasing(n) => n
    case Posting(n) => n
    case Dropping(n) => n
    case Waiting(t) => t
    case Blocked(t) => t
    case _ => Forever
  }

  predicate Attends(pc: Pc, i: nat) {
    WillSweep(pc) || (NapOf(pc).Timed? && i in NapOf(pc).seen)
  }

  ghost predicate Covered(s: State, i: nat) {
    s.wakes > 0 || exists w :: w in s.workers && Attends(s.workers[w], i)
  }

  ghost predicate Attended(s: State) {
    Running(s.stop) ==> forall i :: Rung(s, i) ==> Covered(s, i)
  }

  predicate Early(stage: Stage) {
    stage.Begun? || stage.Registered? || stage.Pinned? || stage.Added?
  }

  /** A timer that is still being counted has not been told to the port. */
  ghost predicate Prelude(s: State) {
    forall i :: i in s.books.ops && s.books.ops[i].timer && Early(s.books.ops[i].stage) && i in s.posters ==> s.posters[i].Plain?
  }

  // ----- The table and the threads that post

  lemma MovesTable(b: Books, a: Act)
    requires Can(b, a) && JustMoves(a)
    ensures var t := Do(b, a).ops;
            && a.i in t && t == b.ops[a.i := t[a.i]]
            && (t[a.i].stage.Armed? ==> a == PublishA(a.i, true))
            && (t[a.i].stage.Publishing? ==> a == InsertA(a.i))
            && (Early(t[a.i].stage) ==> a.BeginA?)
  {
    hide Free;
  }

  lemma CountsTable(b: Books, a: Act)
    requires Can(b, a) && !JustMoves(a) && !a.ClaimA? && !a.ClearA?
    ensures var t := Do(b, a).ops;
            && a.i in b.ops && a.i in t && t == b.ops[a.i := t[a.i]] && !t[a.i].stage.Armed? && !t[a.i].stage.Publishing?
            && (Early(t[a.i].stage) ==> Early(b.ops[a.i].stage) && t[a.i].timer == b.ops[a.i].timer)
  {
    hide AddSocket, AddPending, AddOutstanding, Unregister, ReleasePending, ReleaseOutstanding, Take;
    if a.AddSocketA? || a.AddPendingA? || a.AddOutstandingA? || a.UnregisterA? {
      CountsStage(b, a.i);
    } else {
      ReleaseStage(b, a.i);
    }
  }

  /** Only inserting puts an operation into the table, only publishing arms it, and only a new post is early. */
  lemma ActTable(b: Books, a: Act, i: nat)
    requires Can(b, a) && i in Do(b, a).ops
    ensures var o := Do(b, a).ops[i];
            && (o.stage.Armed? ==> (i in b.ops && b.ops[i].stage.Armed?) || a == PublishA(i, true))
            && (o.stage.Publishing? ==> (i in b.ops && b.ops[i].stage.Publishing?) || a == InsertA(i))
            && (Early(o.stage) ==> (i in b.ops && Early(b.ops[i].stage) && o.timer == b.ops[i].timer) || (a.BeginA? && a.i == i))
  {
    if !a.ClaimA? && !a.ClearA? {
      hide Can, Do, JustMoves;
      if JustMoves(a) {
        MovesTable(b, a);
      } else {
        CountsTable(b, a);
      }
    }
  }

  lemma PostPrelude(s: State, j: nat, p: PostEvent)
    requires Prelude(s) && CanPost(s, j, p)
    ensures Prelude(DoPost(s, j, p))
  {
    var t, a := DoPost(s, j, p), ActOf(s, Post(j, p));
    StepActs(s, Post(j, p));
    forall i | i in t.books.ops && t.books.ops[i].timer && Early(t.books.ops[i].stage) && i in t.posters ensures t.posters[i].Plain? {
      if a.Some? {
        ActTable(s.books, a.value, i);
      }
    }
  }

  lemma StepPrelude(s: State, e: Event)
    requires Prelude(s) && Locks(s) && Enabled(s, e)
    ensures Prelude(Step(s, e))
  {
    if e.Post? {
      PostPrelude(s, e.i, e.p);
    } else {
      StepActs(s, e);
      StepPosters(s, e);
      var a := ActOf(s, e);
      hide Step, Enabled, ActOf, Do, Can, Early;
      if a.Some? {
        forall i | i in Step(s, e).books.ops ensures
          Early(Step(s, e).books.ops[i].stage) ==>
            i in s.books.ops && Early(s.books.ops[i].stage) && Step(s, e).books.ops[i].timer == s.books.ops[i].timer {
          ActTable(s.books, a.value, i);
        }
      }
    }
  }

  lemma PostRung(s: State, j: nat, p: PostEvent, i: nat)
    requires CanPost(s, j, p) && Rung(DoPost(s, j, p), i)
    ensures Rung(s, i) || DoPost(s, j, p).wakes > 0
  {
    StepActs(s, Post(j, p));
    var a := ActOf(s, Post(j, p));
    if a.Some? {
      ActTable(s.books, a.value, i);
    }
    hide Do, Can;
  }

  /** A timer enters this discipline only when its wake-up is put into the port. */
  lemma StepRung(s: State, e: Event, i: nat)
    requires IocpBooks.Inv(s.books) && Prelude(s) && Enabled(s, e) && Rung(Step(s, e), i)
    ensures Rung(s, i) || Step(s, e).wakes > 0
  {
    if e.Post? {
      PostRung(s, e.i, e.p, i);
    } else {
      StepActs(s, e);
      StepPosters(s, e);
      var a := ActOf(s, e);
      NoPublish(s, e);
      if a.Some? {
        InsertIsTimer(s.books, a.value);
        ActTable(s.books, a.value, i);
      }
      hide Step, Enabled, ActOf, Do, Can, IocpBooks.Inv;
    }
  }

  lemma NoPublish(s: State, e: Event)
    requires Enabled(s, e) && !e.Post?
    ensures ActOf(s, e).Some? ==> !ActOf(s, e).value.PublishA?
  {
    hide Can, CanWork, CanCancel, CanStop;
  }

  lemma InsertIsTimer(b: Books, a: Act)
    requires Can(b, a)
    ensures a.InsertA? ==> a.i in b.ops && b.ops[a.i].timer && Early(b.ops[a.i].stage)
  {
    hide Free;
  }

  // ----- The workers

  lemma LookAttends(s: State, w: Worker, pc: Pc, i: nat)
    requires w in s.workers && pc == s.workers[w] && CanLook(s, pc) && Running(s.stop) && Attends(pc, i)
    ensures w in Look(s, w, pc).workers && Attends(Look(s, w, pc).workers[w], i)
  {
    hide Pin, Unpin;
  }

  /** A worker that attends to a timer goes on to, as long as that timer is in the table. */
  lemma WorkAttends(s: State, w: Worker, e: WorkEvent, i: nat)
    requires CanWork(s, w, e) && Running(s.stop) && Rung(DoWork(s, w, e), i)
    ensures w in DoWork(s, w, e).workers
    ensures Attends(s.workers[w], i) || e.WakeE? ==> Attends(DoWork(s, w, e).workers[w], i)
    ensures forall x :: x in s.workers && x != w ==> x in DoWork(s, w, e).workers && DoWork(s, w, e).workers[x] == s.workers[x]
    ensures !e.WakeE? ==> DoWork(s, w, e).wakes == s.wakes
  {
    hide Do, Can, NoneClaimed, Look, CanLook, Unpin;
    if e.LookE? {
      LookFrame(s, w, s.workers[w]);
      if Attends(s.workers[w], i) {
        LookAttends(s, w, s.workers[w], i);
      }
    } else if e.SweepE? {
      assert i in Table(Do(s.books, ClaimA(e.due, w)));
    }
  }

  lemma WorkCovered(s: State, w: Worker, e: WorkEvent, i: nat)
    requires CanWork(s, w, e) && Running(s.stop) && Rung(DoWork(s, w, e), i) && Covered(s, i)
    ensures Covered(DoWork(s, w, e), i)
  {
    hide CanWork, DoWork, Rung, Attends;
    WorkAttends(s, w, e, i);
    var t := DoWork(s, w, e);
    if e.WakeE? {
      assert Attends(t.workers[w], i);
    } else if s.wakes == 0 {
      var x :| x in s.workers && Attends(s.workers[x], i);
      assert x in t.workers && Attends(t.workers[x], i);
    }
  }

  lemma StepAttended(s: State, e: Event)
    requires Good(s) && Prelude(s) && Attended(s) && Enabled(s, e)
    ensures Attended(Step(s, e))
  {
    hide Rung, Covered, Step, Enabled, Users, Locks, Quiet, Wakes, IocpBooks.Inv, Prelude;
    var t := Step(s, e);
    if Running(t.stop) {
      WasRunning(s, e);
      forall i | Rung(t, i) ensures Covered(t, i) {
        StepRung(s, e, i);
        if t.wakes > 0 {
          Woken1(t, i);
        } else {
          StepCovered(s, e, i);
        }
      }
    }
  }

  lemma Woken1(s: State, i: nat)
    requires s.wakes > 0
    ensures Covered(s, i)
  {
  }

  lemma WasRunning(s: State, e: Event)
    requires Enabled(s, e) && Running(Step(s, e).stop)
    ensures Running(s.stop)
  {
    StepPosters(s, e);
    if e.Stopping? {
      StopDrains(s, e.st);
    }
    hide Do, Can, CanPost, DoPost, CanCancel, DoCancel, CanWork, DoWork, CanStop, DoStop;
  }

  lemma StepCovered(s: State, e: Event, i: nat)
    requires Enabled(s, e) && Running(s.stop) && Covered(s, i) && Rung(Step(s, e), i) && Running(Step(s, e).stop)
    ensures Covered(Step(s, e), i)
  {
    hide Do, Can, CanPost, DoPost, CanCancel, DoCancel, CanWork, DoWork, CanStop, DoStop, Rung, Attends;
    match e
    case Book(_) =>
    case Post(j, p) => PostWorkers(s, j, p);
    case Cancelling(j, c) => CancelWorkers(s, j, c);
    case Work(w, x) => WorkCovered(s, w, x, i);
    case Stopping(x) => StopDrains(s, x);
  }

  // ----- Every run

  ghost predicate Watchful(s: State) {
    Good(s) && Prelude(s) && Attended(s)
  }

  lemma StepWatchful(s: State, e: Event)
    requires Watchful(s) && Enabled(s, e)
    ensures Watchful(Step(s, e))
  {
    StepGood(s, e);
    assert Locks(s);
    hide Step, Enabled, Prelude, Attended, Users, Locks, Quiet, Wakes, IocpBooks.Inv;
    StepPrelude(s, e);
    StepAttended(s, e);
  }

  lemma InitialWatchful(s: State)
    requires Initial(s)
    ensures Watchful(s)
  {
    InitialGood(s);
  }

  lemma {:induction false} RunWatchful(run: seq<State>, es: seq<Event>, n: nat)
    requires IsRun(run, es) && n < |run|
    ensures Watchful(run[n])
    decreases n
  {
    hide Watchful, Initial, Step, Enabled;
    if n == 0 {
      InitialWatchful(run[0]);
    } else {
      RunWatchful(run, es, n - 1);
      StepWatchful(run[n - 1], es[n - 1]);
    }
  }

  /**
   In every reachable state of a running service, for every timer of the table that the port was
   told of: a wake-up is in the port, or some worker sweeps before it waits, or some worker waits no
   longer than this timer allows.
   */
  lemma NoTimerOverlooked(run: seq<State>, es: seq<Event>, n: nat, i: nat)
    requires IsRun(run, es) && n < |run| && Running(run[n].stop) && Rung(run[n], i)
    ensures run[n].wakes > 0 || exists w :: w in run[n].workers && Attends(run[n].workers[w], i)
  {
    hide IsRun, Good, Prelude, Rung, Attends;
    RunWatchful(run, es, n);
    assert Covered(run[n], i);
  }

  /** So the workers never all sleep without a time limit while such a timer is in the table. */
  lemma NotAllAsleep(run: seq<State>, es: seq<Event>, n: nat, i: nat)
    requires IsRun(run, es) && n < |run| && Running(run[n].stop) && Rung(run[n], i)
    requires forall w :: w in run[n].workers ==> run[n].workers[w] == Blocked(Forever)
    ensures run[n].wakes > 0
  {
    hide IsRun, Rung;
    NoTimerOverlooked(run, es, n, i);
  }
}
