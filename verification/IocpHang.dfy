/**
 A run in which Stop hangs. One worker uses up both wake-ups of the first batch while an
 operation is outstanding and waits again; the other releases the last unit; the port refuses one
 wake-up of the second batch, and the other worker takes the only one that is left.
 */
module IocpHang {
  import opened Bytes
  import opened IocpBooks
  import opened Iocp
  import opened IocpProofs
  import opened IocpShutdown
  import opened IocpTheorems

  ghost predicate Reached(s: State) {
    exists run: seq<State>, es: seq<Event> :: IsRun(run, es) && run[|es|] == s
  }

  lemma Begins(s: State)
    requires Initial(s)
    ensures Reached(s)
  {
    hide Initial;
    assert IsRun([s], []) && [s][0] == s;
  }

  lemma Go(s: State, e: Event)
    requires Reached(s) && Enabled(s, e)
    ensures Reached(Step(s, e))
  {
    hide Initial, Enabled, Step;
    var run: seq<State>, es: seq<Event> :| IsRun(run, es) && run[|es|] == s;
    var more, events := run + [Step(s, e)], es + [e];
    forall n | 0 <= n < |events| ensures Enabled(more[n], events[n]) && more[n + 1] == Step(more[n], events[n]) {
      if n < |es| {
        assert more[n] == run[n] && more[n + 1] == run[n + 1] && events[n] == es[n];
      }
    }
    assert IsRun(more, events) && more[|events|] == Step(s, e);
  }

  lemma GoBook(s: State, a: Act)
    requires Reached(s) && Plainly(s.books, a) && Can(s.books, a)
    ensures Reached(s.(books := Do(s.books, a)))
  {
    hide Reached, Can, Plainly, Do;
    Go(s, Book(a));
  }

  // ----- The operation

  function Only(stage: Stage, calls: nat, releases: nat): map<nat, Op> {
    map[0 := Op(0, 0, Some(0), false, stage, false, false, calls, releases)]
  }

  const POSTED := Books(Only(Posted, 0, 0), 1, multiset{0}, multiset{0}, map[0 := 0], false)
  const TAKEN := Books(Only(Taken, 0, 0), 1, multiset{0}, multiset{0}, map[], false)
  const ADDED := Books(Only(Added, 0, 0), 1, multiset{0}, multiset{0}, map[0 := 0], false)
  const GONE := Books(Only(Gone(Delivered), 1, 1), 0, multiset{}, multiset{}, map[], false)

  const B1 := Books(Only(Begun, 0, 0), 0, multiset{}, multiset{}, map[], false)
  const B2 := Books(Only(Registered, 0, 0), 0, multiset{}, multiset{0}, map[], false)
  const B3 := Books(Only(Pinned, 0, 0), 0, multiset{0}, multiset{0}, map[0 := 0], false)
  const L1 := Books(Only(Unregistered, 0, 0), 1, multiset{0}, multiset{}, map[], false)
  const L2 := Books(Only(Leaving(Delivered), 1, 0), 1, multiset{0}, multiset{}, map[], false)
  const L3 := Books(Only(Left(Delivered), 1, 0), 1, multiset{}, multiset{}, map[], false)

  lemma Adds()
    ensures Can(EMPTY, BeginA(0, 0, 0, Some(0), false)) && Do(EMPTY, BeginA(0, 0, 0, Some(0), false)) == B1
    ensures Can(B1, AddSocketA(0)) && Do(B1, AddSocketA(0)) == B2
    ensures Can(B2, AddPendingA(0)) && Do(B2, AddPendingA(0)) == B3
    ensures Can(B3, AddOutstandingA(0)) && Do(B3, AddOutstandingA(0)) == ADDED
    ensures Can(ADDED, KernelA(0, true)) && Plainly(ADDED, KernelA(0, true)) && Do(ADDED, KernelA(0, true)) == POSTED
  {
  }

  lemma Releases()
    ensures Can(TAKEN, UnregisterA(0)) && Do(TAKEN, UnregisterA(0)) == L1
    ensures Can(L1, DispatchA(0)) && Do(L1, DispatchA(0)) == L2
    ensures Can(L2, ReleasePendingA(0)) && Do(L2, ReleasePendingA(0)) == L3
    ensures Can(L3, ReleaseOutstandingA(0)) && Do(L3, ReleaseOutstandingA(0)) == GONE
  {
  }

  lemma Takes()
    ensures Can(POSTED, TakeA(0)) && Do(POSTED, TakeA(0)) == TAKEN
    ensures Do(POSTED, ClearA) == POSTED && Do(TAKEN, ClearA) == TAKEN
    ensures Can(POSTED, ClaimA({}, 1)) && Do(POSTED, ClaimA({}, 1)) == POSTED
  {
    assert Do(TAKEN, ClearA).ops == TAKEN.ops;
    assert Do(POSTED, ClearA).ops == POSTED.ops;
    assert Do(POSTED, ClaimA({}, 1)).ops == POSTED.ops;
  }

  // ----- The parts of the run

  /** Nobody posts or cancels; nobody but the blocked worker holds the port. */
  function At(b: Books, p0: Pc, p1: Pc, stop: StopPc, wakes: nat, lost: nat): State {
    var pinners := (if Leased(p0) then {ByWorker(0)} else {}) + (if Leased(p1) then {ByWorker(1)} else {});
    State(b, map[], map[], map[0 := p0, 1 := p1], stop, (if Leased(p0) then 1 else 0) + (if Leased(p1) then 1 else 0), pinners, wakes, lost, false)
  }

  lemma Posted1()
    ensures Reached(At(POSTED, Top, Top, Off, 0, 0))
  {
    hide Reached, Do, Can;
    var s := At(EMPTY, Top, Top, Off, 0, 0);
    assert 0 in s.workers;
    Begins(s);
    Adds();
    var t := s.(books := B1, posters := map[0 := Plain]);
    assert Step(s, Post(0, BeginE(0, 0, Some(0), false))) == t;
    Go(s, Post(0, BeginE(0, 0, Some(0), false)));
    GoBook(t, AddSocketA(0));
    GoBook(t.(books := B2), AddPendingA(0));
    GoBook(t.(books := B3), AddOutstandingA(0));
    GoBook(t.(books := ADDED), KernelA(0, true));
    Returned(t.(books := POSTED), At(POSTED, Top, Top, Off, 0, 0));
  }

  lemma Returned(s: State, t: State)
    requires Reached(s) && s == t.(posters := map[0 := Plain]) && t.posters == map[] && s.books == POSTED
    ensures Reached(t)
  {
    hide Reached;
    assert s.posters - {0} == map[];
    assert Step(s, Post(0, ReturnE)) == t;
    Go(s, Post(0, ReturnE));
  }

  /** Where a worker's own step leads, with the port open and the lock free. */
  function After(outstanding: int, pc: Pc, stop: StopPc): Pc {
    match pc
    case Top => if Running(stop) then Sweep else Asking
    case Swept(n) => if Running(stop) then Leasing(n) else Dropping(Timed({}))
    case Leasing(n) => Posting(n)
    case Asking => Waiting(if outstanding == 0 then Done else Forever)
    case Waiting(t) => Blocked(t)
    case GotOp(i) => Handling(i)
    case GotNothing(t) => Woken(t)
    case Woken(t) => if Running(stop) then Top else Checking(t)
    case Checking(_) => if outstanding == 0 then Exited else Top
    case _ => Top
  }

  predicate Looks(b: Books, pc: Pc, stop: StopPc) {
    && HasPort(stop) && !Locked(stop)
    && !pc.Sweep? && !pc.Dropping? && !pc.Posting? && !pc.Blocked? && !pc.Exited?
    && (pc.Handling? ==> pc.i in b.ops && b.ops[pc.i].stage.Gone?)
  }

  lemma LookIs0(b: Books, p: Pc, p1: Pc, stop: StopPc, wakes: nat, lost: nat)
    requires Looks(b, p, stop)
    ensures CanLook(At(b, p, p1, stop, wakes, lost), p) && Look(At(b, p, p1, stop, wakes, lost), 0, p) == At(b, After(b.outstanding, p, stop), p1, stop, wakes, lost)
  {
    hide At, Pin, Unpin, Iocp.At;
    Moved0(b, p, p1, After(b.outstanding, p, stop), stop, wakes, lost);
  }

  lemma Moved0(b: Books, p: Pc, p1: Pc, q: Pc, stop: StopPc, wakes: nat, lost: nat)
    ensures var s, t := At(b, p, p1, stop, wakes, lost), At(b, q, p1, stop, wakes, lost);
            var u := Iocp.At(s, 0, q);
            && s.stop == stop && s.books == b
            && (Leased(p) == Leased(q) ==> u == t)
            && (!Leased(p) && Leased(q) ==> Pin(u, ByWorker(0)) == t)
            && (Leased(p) && !Leased(q) ==> Unpin(u, ByWorker(0)) == t)
  {
    var s, t := At(b, p, p1, stop, wakes, lost), At(b, q, p1, stop, wakes, lost);
    assert Iocp.At(s, 0, q).workers == t.workers;
  }

  lemma Look0(b: Books, p: Pc, p1: Pc, stop: StopPc, wakes: nat, lost: nat)
    requires Reached(At(b, p, p1, stop, wakes, lost)) && Looks(b, p, stop)
    ensures Reached(At(b, After(b.outstanding, p, stop), p1, stop, wakes, lost))
  {
    hide Reached, Look, CanLook, After;
    LookIs0(b, p, p1, stop, wakes, lost);
    Go(At(b, p, p1, stop, wakes, lost), Work(0, LookE));
  }

  lemma LookIs1(b: Books, p0: Pc, p: Pc, stop: StopPc, wakes: nat, lost: nat)
    requires Looks(b, p, stop)
    ensures CanLook(At(b, p0, p, stop, wakes, lost), p) && Look(At(b, p0, p, stop, wakes, lost), 1, p) == At(b, p0, After(b.outstanding, p, stop), stop, wakes, lost)
  {
    hide At, Pin, Unpin, Iocp.At;
    Moved1(b, p0, p, After(b.outstanding, p, stop), stop, wakes, lost);
  }

  lemma Moved1(b: Books, p0: Pc, p: Pc, q: Pc, stop: StopPc, wakes: nat, lost: nat)
    ensures var s, t := At(b, p0, p, stop, wakes, lost), At(b, p0, q, stop, wakes, lost);
            var u := Iocp.At(s, 1, q);
            && s.stop == stop && s.books == b
            && (Leased(p) == Leased(q) ==> u == t)
            && (!Leased(p) && Leased(q) ==> Pin(u, ByWorker(1)) == t)
            && (Leased(p) && !Leased(q) ==> Unpin(u, ByWorker(1)) == t)
  {
    var s, t := At(b, p0, p, stop, wakes, lost), At(b, p0, q, stop, wakes, lost);
    assert Iocp.At(s, 1, q).workers == t.workers;
  }

  lemma Look1(b: Books, p0: Pc, p: Pc, stop: StopPc, wakes: nat, lost: nat)
    requires Reached(At(b, p0, p, stop, wakes, lost)) && Looks(b, p, stop)
    ensures Reached(At(b, p0, After(b.outstanding, p, stop), stop, wakes, lost))
  {
    hide Reached, Look, CanLook, After;
    LookIs1(b, p0, p, stop, wakes, lost);
    Go(At(b, p0, p, stop, wakes, lost), Work(1, LookE));
  }

  /** The second worker takes the operation while the service still runs. */
  lemma Taken1()
    ensures Reached(At(TAKEN, Top, Handling(0), Off, 0, 0))
  {
    hide Reached, At, Do, Can;
    Posted1();
    Look1(POSTED, Top, Top, Off, 0, 0);
    Swept1();
    Look1(POSTED, Top, Swept(Forever), Off, 0, 0);
    Look1(POSTED, Top, Leasing(Forever), Off, 0, 0);
    Next1();
    Look1(POSTED, Top, Waiting(Forever), Off, 0, 0);
    Take1();
    Look1(TAKEN, Top, GotOp(0), Off, 0, 0);
  }

  lemma Swept1()
    requires Reached(At(POSTED, Top, Sweep, Off, 0, 0))
    ensures Reached(At(POSTED, Top, Swept(Forever), Off, 0, 0))
  {
    hide Reached, Do, Can;
    Takes();
    var s := At(POSTED, Top, Sweep, Off, 0, 0);
    assert Table(POSTED) == {};
    assert Step(s, Work(1, SweepE({}))) == At(POSTED, Top, Swept(Forever), Off, 0, 0);
    Go(s, Work(1, SweepE({})));
  }

  lemma Next1()
    requires Reached(At(POSTED, Top, Posting(Forever), Off, 0, 0))
    ensures Reached(At(POSTED, Top, Waiting(Forever), Off, 0, 0))
  {
    hide Reached, Do, Can;
    var s := At(POSTED, Top, Posting(Forever), Off, 0, 0);
    assert NoneClaimed(POSTED, 1);
    assert Step(s, Work(1, NextE)) == At(POSTED, Top, Waiting(Forever), Off, 0, 0);
    Go(s, Work(1, NextE));
  }

  lemma Take1()
    requires Reached(At(POSTED, Top, Blocked(Forever), Off, 0, 0))
    ensures Reached(At(TAKEN, Top, GotOp(0), Off, 0, 0))
  {
    hide Reached, Do, Can;
    Takes();
    var s := At(POSTED, Top, Blocked(Forever), Off, 0, 0);
    assert Step(s, Work(1, TakeE(0))) == At(TAKEN, Top, GotOp(0), Off, 0, 0);
    Go(s, Work(1, TakeE(0)));
  }

  /** One step of the thread in Stop. */
  lemma Stops(b: Books, p0: Pc, p1: Pc, stop: StopPc, wakes: nat, lost: nat, e: StopEvent, c: Books, next: StopPc, w: nat, l: nat)
    requires Reached(At(b, p0, p1, stop, wakes, lost)) && CanStop(At(b, p0, p1, stop, wakes, lost), e)
    requires DoStop(At(b, p0, p1, stop, wakes, lost), e) == At(c, p0, p1, next, w, l)
    ensures Reached(At(c, p0, p1, next, w, l))
  {
    hide Reached, At, CanStop, DoStop;
    Go(At(b, p0, p1, stop, wakes, lost), Stopping(e));
  }

  lemma Stopped()
    ensures Reached(At(TAKEN, Top, Handling(0), Draining, 2, 0))
  {
    hide Reached, Do;
    Taken1();
    Takes();
    Two(Top, Handling(0));
    var p := Handling(0);
    Stops(TAKEN, Top, p, Off, 0, 0, StopE, TAKEN, Clearing, 0, 0);
    Stops(TAKEN, Top, p, Clearing, 0, 0, ClearE, TAKEN, Waking(0), 0, 0);
    Stops(TAKEN, Top, p, Waking(0), 0, 0, WakeUpE(true), TAKEN, Waking(1), 1, 0);
    Stops(TAKEN, Top, p, Waking(1), 1, 0, WakeUpE(true), TAKEN, Waking(2), 2, 0);
    Stops(TAKEN, Top, p, Waking(2), 2, 0, AdvanceE, TAKEN, Draining, 2, 0);
  }

  lemma Two(p: Pc, q: Pc)
    ensures |map[0 := p, 1 := q]| == 2
  {
    assert map[0 := p, 1 := q].Keys == {0, 1};
  }

  /** The first worker asks, waits, and is woken for nothing. */
  lemma Eats(wakes: nat)
    requires Reached(At(TAKEN, Top, Handling(0), Draining, wakes + 1, 0))
    ensures Reached(At(TAKEN, Top, Handling(0), Draining, wakes, 0))
  {
    hide Reached, At;
    Waits(wakes + 1);
    Wakes0(wakes);
    Look0(TAKEN, GotNothing(Forever), Handling(0), Draining, wakes, 0);
    Look0(TAKEN, Woken(Forever), Handling(0), Draining, wakes, 0);
    Look0(TAKEN, Checking(Forever), Handling(0), Draining, wakes, 0);
  }

  lemma Waits(wakes: nat)
    requires Reached(At(TAKEN, Top, Handling(0), Draining, wakes, 0))
    ensures Reached(At(TAKEN, Blocked(Forever), Handling(0), Draining, wakes, 0))
  {
    hide Reached, At;
    Look0(TAKEN, Top, Handling(0), Draining, wakes, 0);
    Look0(TAKEN, Asking, Handling(0), Draining, wakes, 0);
    Look0(TAKEN, Waiting(Forever), Handling(0), Draining, wakes, 0);
  }

  lemma Wakes0(wakes: nat)
    requires Reached(At(TAKEN, Blocked(Forever), Handling(0), Draining, wakes + 1, 0))
    ensures Reached(At(TAKEN, GotNothing(Forever), Handling(0), Draining, wakes, 0))
  {
    hide Reached;
    var s := At(TAKEN, Blocked(Forever), Handling(0), Draining, wakes + 1, 0);
    assert Step(s, Work(0, WakeE)) == At(TAKEN, GotNothing(Forever), Handling(0), Draining, wakes, 0);
    Go(s, Work(0, WakeE));
  }

  /** The second worker dispatches and releases the last unit. */
  lemma Released1()
    ensures Reached(At(GONE, Blocked(Forever), Top, Draining, 0, 0))
  {
    hide Reached, At, Do, Can;
    Stopped();
    Eats(1);
    Eats(0);
    Waits(0);
    Releases();
    var p, q := Blocked(Forever), Handling(0);
    AtBooks(TAKEN, p, q, Draining);
    AtBooks(L1, p, q, Draining);
    AtBooks(L2, p, q, Draining);
    AtBooks(L3, p, q, Draining);
    var s := At(TAKEN, p, q, Draining, 0, 0);
    GoBook(s, UnregisterA(0));
    GoBook(At(L1, p, q, Draining, 0, 0), DispatchA(0));
    GoBook(At(L2, p, q, Draining, 0, 0), ReleasePendingA(0));
    GoBook(At(L3, p, q, Draining, 0, 0), ReleaseOutstandingA(0));
    Look1(GONE, p, q, Draining, 0, 0);
  }

  lemma AtBooks(b: Books, p: Pc, q: Pc, stop: StopPc)
    ensures At(b, p, q, stop, 0, 0).books == b
    ensures forall c :: At(b, p, q, stop, 0, 0).(books := c) == At(c, p, q, stop, 0, 0)
  {
  }

  /** The port refuses one wake-up of the second batch. */
  lemma Refused()
    ensures Reached(At(GONE, Blocked(Forever), Top, Joining, 1, 1))
  {
    hide Reached;
    Released1();
    var p := Blocked(Forever);
    Two(p, Top);
    Stops(GONE, p, Top, Draining, 0, 0, AdvanceE, GONE, Rewaking(0), 0, 0);
    Stops(GONE, p, Top, Rewaking(0), 0, 0, WakeUpE(false), GONE, Rewaking(1), 0, 1);
    Stops(GONE, p, Top, Rewaking(1), 0, 1, WakeUpE(true), GONE, Rewaking(2), 1, 1);
    Stops(GONE, p, Top, Rewaking(2), 1, 1, AdvanceE, GONE, Joining, 1, 1);
  }

  /** The second worker takes the other one and leaves. */
  lemma Leaves1()
    ensures Reached(At(GONE, Blocked(Forever), Exited, Joining, 0, 1))
  {
    hide Reached, At;
    var p := Blocked(Forever);
    Refused();
    Look1(GONE, p, Top, Joining, 1, 1);
    Look1(GONE, p, Asking, Joining, 1, 1);
    Look1(GONE, p, Waiting(Done), Joining, 1, 1);
    Wakes1();
    Look1(GONE, p, GotNothing(Done), Joining, 0, 1);
    Look1(GONE, p, Woken(Done), Joining, 0, 1);
    Look1(GONE, p, Checking(Done), Joining, 0, 1);
  }

  lemma Wakes1()
    requires Reached(At(GONE, Blocked(Forever), Blocked(Done), Joining, 1, 1))
    ensures Reached(At(GONE, Blocked(Forever), GotNothing(Done), Joining, 0, 1))
  {
    hide Reached;
    var s := At(GONE, Blocked(Forever), Blocked(Done), Joining, 1, 1);
    assert Step(s, Work(1, WakeE)) == At(GONE, Blocked(Forever), GotNothing(Done), Joining, 0, 1);
    Go(s, Work(1, WakeE));
  }

  /** With one refused wake-up there is a run of two workers after which no thread can ever move, and Stop is not done. */
  lemma RefusedWakeUpHangs() returns (run: seq<State>, es: seq<Event>)
    ensures IsRun(run, es) && |run[0].workers| == 2 && run[|es|].lost == 1
    ensures Stuck(run[|es|]) && !CanMove(run[|es|]) && !run[|es|].stop.Finished?
  {
    var s := At(GONE, Blocked(Forever), Exited, Joining, 0, 1);
    Leaves1();
    Hangs(s);
    Two(Blocked(Forever), Exited);
    hide Stuck, CanMove, Initial, Step, Enabled;
    run, es :| IsRun(run, es) && run[|es|] == s;
    SameWorkers(run, es, |es|);
  }

  lemma Hangs(s: State)
    requires s == At(GONE, Blocked(Forever), Exited, Joining, 0, 1) && Reached(s)
    ensures Stuck(s) && !CanMove(s)
  {
    assert s.workers[0] == Blocked(Forever);
    assert Stuck(s);
    var run: seq<State>, es: seq<Event> :| IsRun(run, es) && run[|es|] == s;
    hide Stuck, CanMove, IsRun, At;
    EveryRunSound(run, es, |es|);
    StuckExactly(s);
  }

  lemma {:induction false} SameWorkers(run: seq<State>, es: seq<Event>, n: nat)
    requires IsRun(run, es) && n < |run|
    ensures |run[n].workers| == |run[0].workers|
    decreases n
  {
    hide Initial, Step, Enabled;
    if n > 0 {
      SameWorkers(run, es, n - 1);
      StaysWorkers(run[n - 1], es[n - 1]);
    }
  }
}
