/**
 The service under a clock: timers have due times, a sweep claims what is due at the time it
 read before it took the lock, and its wait is the one the code computes from what it leaves.
 */
module IocpClock {
  import opened Bytes
  import opened IocpBooks
  import opened Iocp
  import opened IocpProofs
  import opened IocpTheorems
  import opened IocpAttention
  import C = IocpCode

  /** `swept` and `until` are when each worker's last sweep read the clock, and when the wait it computed is over. */
  datatype Clocked = Clocked(s: State, now: nat, due: map<nat, nat>, swept: map<Worker, nat>, until: map<Worker, nat>)

  /**
   A step of the service, or time passing. ScheduleTimeout adds `delay` to the clock; a sweep read
   the clock at `at` and waits for `wait` milliseconds.
   */
  datatype Tick = Does(e: Event, delay: nat, at: nat, wait: nat) | Passes(to: nat)

  predicate Schedules(e: Event) {
    e.Post? && e.p.BeginE? && e.p.timer
  }

  predicate Sweeps(e: Event) {
    e.Work? && e.e.SweepE?
  }

  /** The timers of the table, as the code keeps them. */
  function Entries(b: Books, due: map<nat, nat>): map<nat, C.TimerState> {
    map i | i in Table(b) && i in due :: C.TimerState(due[i], b.ops[i].handle, if b.ops[i].stage.Armed? then C.PendingP else C.PublishingP)
  }

  ghost predicate Ready(x: Clocked, t: Tick) {
    match t
    case Passes(to) => to >= x.now
    case Does(e, _, at, wait) =>
      && Enabled(x.s, e)
      && (Sweeps(e) ==>
            && at <= x.now
            && e.e.due == (set i | i in x.s.books.ops && x.s.books.ops[i].stage.Armed? && i in x.due && x.due[i] <= at)
            && C.Nearest(Entries(Step(x.s, e).books, x.due), at, wait))
  }

  ghost function Next(x: Clocked, t: Tick): Clocked
    requires Ready(x, t)
  {
    match t
    case Passes(to) => x.(now := to)
    case Does(e, delay, at, wait) =>
      var y := x.(s := Step(x.s, e), due := if Schedules(e) then x.due[e.i := x.now + delay] else x.due);
      if Sweeps(e) then y.(swept := x.swept[e.w := at], until := x.until[e.w := at + wait * C.NANOS]) else y
  }

  ghost predicate IsClocked(run: seq<Clocked>, ts: seq<Tick>) {
    && |run| == |ts| + 1 && Initial(run[0].s) && run[0].due == map[] && run[0].swept == map[] && run[0].until == map[]
    && forall n :: 0 <= n < |ts| ==> Ready(run[n], ts[n]) && run[n + 1] == Next(run[n], ts[n])
  }

  // ----- No timer before its time

  /** The timer was claimed by a sweep. */
  predicate Fired(stage: Stage) {
    || stage.Claimed? || stage.Posted? || stage.Taken? || stage.Unregistered?
    || ((stage.Leaving? || stage.Left? || stage.Gone?) && (stage.fate.Delivered? || stage.fate.Discarded?))
  }

  lemma MovesFired(b: Books, a: Act, i: nat)
    requires Can(b, a) && JustMoves(a) && i in Do(b, a).ops && Do(b, a).ops[i].timer && Fired(Do(b, a).ops[i].stage)
    ensures i in b.ops && b.ops[i].timer && Fired(b.ops[i].stage)
  {
    hide Free;
  }

  lemma CountsFired(b: Books, a: Act, i: nat)
    requires Can(b, a) && !JustMoves(a) && !a.ClaimA? && !a.ClearA? && i in Do(b, a).ops && Fired(Do(b, a).ops[i].stage)
    ensures i in b.ops && Fired(b.ops[i].stage)
  {
    hide AddSocket, AddPending, AddOutstanding, Unregister, ReleasePending, ReleaseOutstanding, Take;
    if a.AddSocketA? || a.AddPendingA? || a.AddOutstandingA? || a.UnregisterA? {
      CountsStage(b, a.i);
    } else {
      ReleaseStage(b, a.i);
    }
  }

  /** Only a sweep makes a timer fire, and only beginning one makes a new timer. */
  lemma ActFired(b: Books, a: Act, i: nat)
    requires Can(b, a) && Stories(b) && i in Do(b, a).ops && Do(b, a).ops[i].timer
    ensures Fired(Do(b, a).ops[i].stage) ==> (i in b.ops && b.ops[i].timer && Fired(b.ops[i].stage)) || (a.ClaimA? && i in a.due)
    ensures (i in b.ops && b.ops[i].timer) || (a.BeginA? && a.i == i && a.timer)
  {
    if i in b.ops {
      ActKept(b, a, i);
      hide Stories, Fired;
      if !a.ClaimA? && !a.ClearA? && Fired(Do(b, a).ops[i].stage) {
        hide Can, Do, JustMoves;
        if JustMoves(a) {
          MovesFired(b, a, i);
        } else {
          CountsFired(b, a, i);
        }
      }
    } else {
      NewIsBegun(b, a, i);
    }
  }

  lemma NewIsBegun(b: Books, a: Act, i: nat)
    requires Can(b, a) && i in Do(b, a).ops && i !in b.ops
    ensures a.BeginA? && a.i == i && Do(b, a).ops[i].timer == a.timer && Do(b, a).ops[i].stage.Begun?
  {
    if !a.BeginA? && !a.ClaimA? && !a.ClearA? {
      if JustMoves(a) {
        MovesTable(b, a);
      } else {
        CountsTable(b, a);
      }
      hide Do, Can;
    }
    hide Free;
  }

  ghost predicate Punctual(x: Clocked) {
    forall i :: i in x.s.books.ops && x.s.books.ops[i].timer ==>
                  i in x.due && (Fired(x.s.books.ops[i].stage) ==> x.due[i] <= x.now)
  }

  lemma ActIs(s: State, e: Event)
    requires Enabled(s, e) && ActOf(s, e).Some?
    ensures ActOf(s, e).value.ClaimA? ==> Sweeps(e) && ActOf(s, e).value.due == e.e.due
    ensures ActOf(s, e).value.BeginA? ==> e.Post? && e.p.BeginE? && e.i == ActOf(s, e).value.i && e.p.timer == ActOf(s, e).value.timer
  {
    hide Can, CanCancel, CanStop;
  }

  lemma SchedulesNew(s: State, e: Event)
    requires Enabled(s, e) && Schedules(e)
    ensures e.i !in s.books.ops
  {
    hide Free;
  }

  lemma DoesPunctual(x: Clocked, t: Tick)
    requires Stories(x.s.books) && Punctual(x) && Ready(x, t) && t.Does?
    ensures Punctual(Next(x, t))
  {
    var a, y := ActOf(x.s, t.e), Next(x, t);
    StepActs(x.s, t.e);
    if Schedules(t.e) {
      SchedulesNew(x.s, t.e);
    }
    if a.Some? {
      ActIs(x.s, t.e);
    }
    hide Step, Enabled, ActOf, Do, Can, Stories, Entries, C.Nearest, Fired;
    forall i | i in y.s.books.ops && y.s.books.ops[i].timer
      ensures i in y.due && (Fired(y.s.books.ops[i].stage) ==> y.due[i] <= y.now)
    {
      if a.Some? {
        ActFired(x.s.books, a.value, i);
        if i !in x.s.books.ops {
          NewIsBegun(x.s.books, a.value, i);
          NotFired();
        }
      }
    }
  }

  lemma NotFired()
    ensures !Fired(Begun)
  {
  }

  // ----- And none is forgotten past it

  /** This worker's wait was computed with this timer in the table: it ends by the due time, or ended at the sweep. */
  ghost predicate Awaits(x: Clocked, w: Worker, i: nat) {
    && i in x.s.books.ops && i in x.due && w in x.swept && w in x.until && x.swept[w] <= x.now
    && (x.until[w] <= x.swept[w] || x.until[w] <= x.due[i])
  }

  predicate Waits(s: State, w: Worker, i: nat) {
    w in s.workers && NapOf(s.workers[w]).Timed? && i in NapOf(s.workers[w]).seen
  }

  ghost predicate Awaited(x: Clocked) {
    forall w, i :: Waits(x.s, w, i) ==> Awaits(x, w, i)
  }

  lemma LookWaits(s: State, w: Worker, pc: Pc, i: nat)
    requires w in s.workers && pc == s.workers[w] && CanLook(s, pc) && Waits(Look(s, w, pc), w, i)
    ensures Waits(s, w, i)
  {
    hide Pin, Unpin;
  }

  lemma WorkWaits(s: State, w: Worker, e: WorkEvent, v: Worker, i: nat)
    requires CanWork(s, w, e) && Waits(DoWork(s, w, e), v, i)
    ensures Waits(s, v, i) || (e.SweepE? && v == w && i in Table(DoWork(s, w, e).books))
  {
    hide Do, Can, NoneClaimed, Look, CanLook, Unpin, Table;
    if e.LookE? {
      LookFrame(s, w, s.workers[w]);
      if v == w {
        LookWaits(s, w, s.workers[w], i);
      }
    }
  }

  lemma StepWaits(s: State, e: Event, v: Worker, i: nat)
    requires Enabled(s, e) && Waits(Step(s, e), v, i)
    ensures Waits(s, v, i) || (Sweeps(e) && v == e.w && i in Table(Step(s, e).books))
  {
    hide Do, Can, CanPost, DoPost, CanCancel, DoCancel, CanWork, DoWork, CanStop, DoStop, Table;
    match e
    case Book(_) =>
    case Post(j, p) => PostWorkers(s, j, p);
    case Cancelling(j, c) => CancelWorkers(s, j, c);
    case Work(w, x) => WorkWaits(s, w, x, v, i);
    case Stopping(x) => StopDrains(s, x);
  }

  /** What the sweep leaves behind, it waits for. */
  lemma SweepAwaits(x: Clocked, t: Tick, i: nat)
    requires Ready(x, t) && t.Does? && Sweeps(t.e) && i in Table(Step(x.s, t.e).books) && i in x.due
    ensures Awaits(Next(x, t), t.e.w, i)
  {
    var b := Step(x.s, t.e).books;
    assert i in b.ops && i in Entries(b, x.due) && Entries(b, x.due)[i].due == x.due[i];
    hide Step, Enabled, C.Nearest, Entries;
    C.NeverOversleeps(Entries(b, x.due), t.at, t.wait, i);
  }

  lemma TableTimers(s: State)
    requires IocpBooks.Inv(s.books)
    ensures forall i :: i in Table(s.books) ==> i in s.books.ops && s.books.ops[i].timer
  {
    hide Balanced, PinsHeld;
    forall i | i in Table(s.books) ensures s.books.ops[i].timer {
      assert Single(s.books.ops[i]);
    }
  }

  lemma DoesAwaited(x: Clocked, t: Tick)
    requires Watchful(x.s) && Punctual(x) && Awaited(x) && Ready(x, t) && t.Does?
    ensures Awaited(Next(x, t))
  {
    var y := Next(x, t);
    StepWatchful(x.s, t.e);
    TableTimers(y.s);
    DoesPunctual(x, t);
    if Schedules(t.e) {
      SchedulesNew(x.s, t.e);
    }
    hide Step, Enabled, Table, Watchful, Entries, C.Nearest, Fired, Waits, Punctual;
    forall w, i | Waits(y.s, w, i) ensures Awaits(y, w, i) {
      StepWaits(x.s, t.e, w, i);
      if Sweeps(t.e) && w == t.e.w && i in Table(y.s.books) {
        InDue(y, i);
        SweepAwaits(x, t, i);
      } else {
        OpsStay(x.s, t.e, i);
      }
    }
  }

  lemma InDue(x: Clocked, i: nat)
    requires Punctual(x) && i in x.s.books.ops && x.s.books.ops[i].timer
    ensures i in x.due
  {
    hide Fired;
  }

  lemma OpsStay(s: State, e: Event, i: nat)
    requires Watchful(s) && Enabled(s, e) && i in s.books.ops
    ensures i in Step(s, e).books.ops
  {
    hide Prelude, Attended;
    StepKept(s, e, i);
  }

  // ----- Every run

  ghost predicate Timely(x: Clocked) {
    Watchful(x.s) && Punctual(x) && Awaited(x)
  }

  lemma NextTimely(x: Clocked, t: Tick)
    requires Timely(x) && Ready(x, t)
    ensures Timely(Next(x, t))
  {
    if t.Does? {
      WatchfulStories(x.s);
      StepWatchful(x.s, t.e);
      DoesPunctual(x, t);
      DoesAwaited(x, t);
    }
    hide Watchful, Step, Enabled, Waits, Fired;
  }

  lemma WatchfulStories(s: State)
    requires Watchful(s)
    ensures Stories(s.books)
  {
    hide Prelude, Attended, Users, Locks, Quiet, Wakes, Balanced, PinsHeld;
  }

  lemma {:induction false} EveryClocked(run: seq<Clocked>, ts: seq<Tick>, n: nat)
    requires IsClocked(run, ts) && n < |run|
    ensures Timely(run[n])
    decreases n
  {
    hide Timely, Next, Ready, Initial;
    if n == 0 {
      InitialTimely(run[0]);
    } else {
      EveryClocked(run, ts, n - 1);
      NextTimely(run[n - 1], ts[n - 1]);
    }
  }

  lemma InitialTimely(x: Clocked)
    requires Initial(x.s)
    ensures Timely(x)
  {
    InitialWatchful(x.s);
    hide Watchful;
  }

  lemma NextDue(x: Clocked, t: Tick, i: nat)
    requires Timely(x) && Ready(x, t) && i in x.due && i in x.s.books.ops
    ensures var y := Next(x, t); i in y.due && y.due[i] == x.due[i] && i in y.s.books.ops
  {
    if t.Does? {
      OpsStay(x.s, t.e, i);
      if Schedules(t.e) {
        SchedulesNew(x.s, t.e);
      }
    }
    hide Step, Enabled, Timely, C.Nearest, Entries, Sweeps, Schedules;
  }

  lemma ScheduledDue(x: Clocked, t: Tick)
    requires Ready(x, t) && t.Does? && Schedules(t.e)
    ensures var y := Next(x, t); t.e.i in y.due && y.due[t.e.i] == x.now + t.delay && t.e.i in y.s.books.ops
  {
    BeginIsOp(x.s, t.e);
    hide Step, Enabled;
  }

  lemma {:induction false} DueStays(run: seq<Clocked>, ts: seq<Tick>, m: nat, n: nat, i: nat)
    requires IsClocked(run, ts) && m < n < |run| && ts[m].Does? && Schedules(ts[m].e) && ts[m].e.i == i
    ensures i in run[n].due && run[n].due[i] == run[m].now + ts[m].delay && i in run[n].s.books.ops
    decreases n
  {
    hide Ready, Next, Timely, Initial, Schedules;
    if n == m + 1 {
      ScheduledDue(run[m], ts[m]);
    } else {
      DueStays(run, ts, m, n - 1, i);
      EveryClocked(run, ts, n - 1);
      NextDue(run[n - 1], ts[n - 1], i);
    }
  }

  lemma BeginIsOp(s: State, e: Event)
    requires Enabled(s, e) && Schedules(e)
    ensures e.i in Step(s, e).books.ops
  {
    hide Free;
  }

  /** No timer's handler runs, and no timer is even claimed, before the delay it was scheduled with has passed. */
  lemma NeverEarly(run: seq<Clocked>, ts: seq<Tick>, m: nat, n: nat, i: nat)
    requires IsClocked(run, ts) && m < n < |run| && ts[m].Does? && Schedules(ts[m].e) && ts[m].e.i == i
    requires i in run[n].s.books.ops && run[n].s.books.ops[i].timer
    requires Fired(run[n].s.books.ops[i].stage) || run[n].s.books.ops[i].calls > 0
    ensures run[n].now >= run[m].now + ts[m].delay
  {
    hide IsClocked;
    DueStays(run, ts, m, n, i);
    EveryClocked(run, ts, n);
    WatchfulStories(run[n].s);
    assert Single(run[n].s.books.ops[i]);
    hide Watchful, Awaited;
  }

  lemma ClaimStage(x: Clocked, t: Tick, i: nat)
    requires Ready(x, t) && t.Does? && Sweeps(t.e) && i in x.s.books.ops && x.s.books.ops[i].stage.Armed? && i in x.due
    ensures i in Next(x, t).s.books.ops
    ensures Next(x, t).s.books.ops[i].stage == if x.due[i] <= t.at then Claimed(t.e.w) else Armed
  {
    hide C.Nearest, Entries, Table, NapOver;
  }

  /** A sweep claims every armed timer that was due when it read the clock, and no other. */
  lemma SweepExact(run: seq<Clocked>, ts: seq<Tick>, n: nat, i: nat)
    requires IsClocked(run, ts) && n < |ts| && ts[n].Does? && Sweeps(ts[n].e) && i in run[n].s.books.ops && run[n].s.books.ops[i].stage.Armed?
    ensures i in run[n].due && i in run[n + 1].s.books.ops
    ensures run[n + 1].s.books.ops[i].stage == if run[n].due[i] <= ts[n].at then Claimed(ts[n].e.w) else Armed
  {
    var x, t := run[n], ts[n];
    EveryClocked(run, ts, n);
    WatchfulStories(x.s);
    assert Single(x.s.books.ops[i]);
    InDue(x, i);
    hide Ready, Next, Timely, Initial, Sweeps;
    ClaimStage(x, t, i);
  }

  /**
   While the service runs, a timer that the port was told of and that is due has a wake-up in the
   port, a worker about to sweep, or a worker whose wait, counted from its sweep, is over.
   */
  lemma OverdueIsAttended(run: seq<Clocked>, ts: seq<Tick>, n: nat, i: nat)
    requires IsClocked(run, ts) && n < |run|
    requires Running(run[n].s.stop) && IocpAttention.Rung(run[n].s, i) && i in run[n].due && run[n].due[i] <= run[n].now
    ensures var x := run[n];
            || x.s.wakes > 0
            || (exists w :: w in x.s.workers && WillSweep(x.s.workers[w]))
            || (exists w :: Waits(x.s, w, i) && w in x.until && x.until[w] <= x.now)
  {
    EveryClocked(run, ts, n);
    var x := run[n];
    WatchfulCovers(x.s, i);
    hide IsClocked, Watchful, IocpAttention.Rung, WillSweep, NapOf, Punctual;
    if x.s.wakes == 0 {
      var w :| w in x.s.workers && Attends(x.s.workers[w], i);
      if !WillSweep(x.s.workers[w]) {
        assert Waits(x.s, w, i);
        assert Awaits(x, w, i);
      }
    }
  }

  lemma WatchfulCovers(s: State, i: nat)
    requires Watchful(s) && Running(s.stop) && IocpAttention.Rung(s, i)
    ensures Covered(s, i)
  {
    hide Good, Prelude, IocpAttention.Rung, Covered;
  }
}
