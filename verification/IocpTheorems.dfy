/** The completion port service in every run: accounting, timers and the closed port. */
module IocpTheorems {
  import opened Bytes
  import opened IocpBooks
  import opened Iocp
  import opened IocpProofs
  import opened IocpShutdown

  lemma {:induction false} EveryRunSound(run: seq<State>, es: seq<Event>, n: nat)
    requires IsRun(run, es) && n < |run|
    ensures Sound(run[n])
    decreases n
  {
    hide Sound, Initial, Step, Enabled;
    if n == 0 {
      InitialSound(run[0]);
    } else {
      EveryRunSound(run, es, n - 1);
      StepSound(run[n - 1], es[n - 1]);
    }
  }

  ghost function AtPinned(b: Books): set<nat> {
    set i | i in b.ops && b.ops[i].stage.Pinned?
  }

  ghost function AtLeft(b: Books): set<nat> {
    set i | i in b.ops && b.ops[i].stage.Left?
  }

  /** Both members of the difference count the same operations but for an add or a release in progress. */
  lemma PendingGap(b: Books)
    ensures Count(b.ops, AllPending) + |AtLeft(b)| == Count(b.ops, Outstanding) + |AtPinned(b)|
  {
    hide Members, AtLeft, AtPinned;
    var p, o := Members(b.ops, AllPending), Members(b.ops, Outstanding);
    PendingSets(b);
    assert |p + AtLeft(b)| == |p| + |AtLeft(b)|;
    assert |o + AtPinned(b)| == |o| + |AtPinned(b)|;
  }

  lemma PendingSets(b: Books)
    ensures var p, o := Members(b.ops, AllPending), Members(b.ops, Outstanding);
            p + AtLeft(b) == o + AtPinned(b) && p !! AtLeft(b) && o !! AtPinned(b)
  {
  }

  /**
   In every reachable state of every interleaving: the outstanding count is the number of live
   operations; it is the sum of the handles' pending counts, up to each thread's add or release
   in progress; a socket's count is the number of its operations not yet dispatched; and no
   underflow, missing entry or missing pin has ever been met.
   */
  lemma Accounting(run: seq<State>, es: seq<Event>, n: nat)
    requires IsRun(run, es) && n < |run|
    ensures var b := run[n].books;
            && b.outstanding == |set i | i in b.ops && IsOutstanding(b.ops[i].stage)|
            && b.outstanding + |AtPinned(b)| == |b.pending| + |AtLeft(b)|
            && (forall h :: b.pending[h] == |set i | i in b.ops && b.ops[i].handle == h && IsPending(b.ops[i].stage)|)
            && (forall x :: b.sockets[x] == |set i | i in b.ops && b.ops[i].socket == Some(x) && OnSocket(b.ops[i].stage)|)
            && !b.fault && !run[n].fault
  {
    hide Sound, IsRun;
    EveryRunSound(run, es, n);
    NoFault(run[n]);
    SoundBalances(run[n]);
  }

  /**
   The same told of the branches themselves: wherever an operation is about to take a pin or lower a
   counter, the pin is there and the counter is not zero; and no one leaves a port that has no users.
   */
  lemma FaultBranchesDead(run: seq<State>, es: seq<Event>, n: nat, i: nat)
    requires IsRun(run, es) && n < |run| && i in run[n].books.ops
    ensures var b, o := run[n].books, run[n].books.ops[i];
            && (o.stage.Posted? ==> o.ctx in b.pins && b.pins[o.ctx] == o.handle)
            && (o.stage.Leaving? ==> o.handle in b.pending)
            && (o.stage.Left? ==> b.outstanding > 0)
            && ((o.stage.Taken? || o.stage.Failing?) && o.socket.Some? ==> o.socket.value in b.sockets)
    ensures run[n].pinners != {} ==> run[n].users > 0
  {
    hide IsRun;
    EveryRunSound(run, es, n);
    SoundUsers(run[n]);
    BooksBranches(run[n].books, i);
  }

  lemma SoundUsers(s: State)
    requires Sound(s)
    ensures IocpBooks.Inv(s.books) && (s.pinners != {} ==> s.users > 0)
  {
    hide Locks, Quiet, Wakes, Owned, Shut, IocpBooks.Inv;
  }

  lemma BooksBranches(b: Books, i: nat)
    requires IocpBooks.Inv(b) && i in b.ops
    ensures var o := b.ops[i];
            && (o.stage.Posted? ==> o.ctx in b.pins && b.pins[o.ctx] == o.handle)
            && (o.stage.Leaving? ==> o.handle in b.pending)
            && (o.stage.Left? ==> b.outstanding > 0)
            && ((o.stage.Taken? || o.stage.Failing?) && o.socket.Some? ==> o.socket.value in b.sockets)
  {
    hide Balanced, Stories;
    var o := b.ops[i];
    if o.stage.Leaving? {
      Positive(b, i, PendingOf(o.handle));
    } else if o.stage.Left? {
      Positive(b, i, Outstanding);
    } else if (o.stage.Taken? || o.stage.Failing?) && o.socket.Some? {
      Positive(b, i, SocketOf(o.socket.value));
    }
  }

  lemma NoFault(s: State)
    requires Sound(s)
    ensures Balanced(s.books) && !s.books.fault && !s.fault
  {
    hide Locks, Quiet, Wakes, Owned, Shut, PinsHeld, Stories, Balanced;
  }

  lemma SoundBalances(s: State)
    requires Balanced(s.books)
    ensures var b := s.books;
            && b.outstanding == |set i | i in b.ops && IsOutstanding(b.ops[i].stage)|
            && b.outstanding + |AtPinned(b)| == |b.pending| + |AtLeft(b)|
            && (forall h :: b.pending[h] == |set i | i in b.ops && b.ops[i].handle == h && IsPending(b.ops[i].stage)|)
            && (forall x :: b.sockets[x] == |set i | i in b.ops && b.ops[i].socket == Some(x) && OnSocket(b.ops[i].stage)|)
  {
    var b := s.books;
    hide IsOutstanding, IsPending, OnSocket, AtPinned, AtLeft;
    assert Value(b, Outstanding) == Count(b.ops, Outstanding);
    assert Value(b, AllPending) == Count(b.ops, AllPending);
    PendingGap(b);
    assert Members(b.ops, Outstanding) == set i | i in b.ops && IsOutstanding(b.ops[i].stage);
    forall h ensures b.pending[h] == |set i | i in b.ops && b.ops[i].handle == h && IsPending(b.ops[i].stage)| {
      assert Value(b, PendingOf(h)) == Count(b.ops, PendingOf(h));
      assert Members(b.ops, PendingOf(h)) == set i | i in b.ops && b.ops[i].handle == h && IsPending(b.ops[i].stage);
    }
    forall x ensures b.sockets[x] == |set i | i in b.ops && b.ops[i].socket == Some(x) && OnSocket(b.ops[i].stage)| {
      assert Value(b, SocketOf(x)) == Count(b.ops, SocketOf(x));
      assert Members(b.ops, SocketOf(x)) == set i | i in b.ops && b.ops[i].socket == Some(x) && OnSocket(b.ops[i].stage);
    }
  }

  // ----- Fates

  /** A fate, once met, is never changed, and a release is never repeated. */
  ghost predicate Kept(o: Op, p: Op) {
    && p.timer == o.timer && p.cancelled == (o.cancelled || p.cancelled) && (o.armed ==> p.armed)
    && (FateOf(o.stage).Some? ==> FateOf(p.stage) == FateOf(o.stage) && p.armed == o.armed)
    && (o.stage.Gone? ==> p == o)
  }

  lemma MoveKept(b: Books, a: Act)
    requires Can(b, a) && JustMoves(a) && !a.BeginA? && Single(b.ops[a.i])
    ensures var t := Do(b, a).ops; a.i in t && t == b.ops[a.i := t[a.i]] && Kept(b.ops[a.i], t[a.i])
  {
    hide Free;
  }

  lemma CountsKept(b: Books, a: Act)
    requires Can(b, a) && (a.AddSocketA? || a.AddPendingA? || a.AddOutstandingA? || a.UnregisterA?)
    ensures var t := Do(b, a).ops; a.i in t && t == b.ops[a.i := t[a.i]] && Kept(b.ops[a.i], t[a.i])
  {
    hide AddSocket, AddPending, AddOutstanding, Unregister;
    CountsStage(b, a.i);
  }

  lemma ReleasesKept(b: Books, a: Act)
    requires Can(b, a) && (a.ReleasePendingA? || a.ReleaseOutstandingA? || a.TakeA?)
    ensures var t := Do(b, a).ops; a.i in t && t == b.ops[a.i := t[a.i]] && Kept(b.ops[a.i], t[a.i])
  {
    hide Take, ReleasePending, ReleaseOutstanding;
    match a
    case TakeA(i) => TakeKept(b, i);
    case ReleaseOutstandingA(i) => GoneKept(b, i);
    case _ =>
  }

  lemma TakeKept(b: Books, i: nat)
    requires AtStage(b, i, Posted)
    ensures var t := Take(b, i).ops; i in t && t == b.ops[i := t[i]] && Kept(b.ops[i], t[i])
  {
  }

  lemma GoneKept(b: Books, i: nat)
    requires i in b.ops && b.ops[i].stage.Left?
    ensures var t := ReleaseOutstanding(b, i).ops; i in t && t == b.ops[i := t[i]] && Kept(b.ops[i], t[i])
  {
  }

  lemma ActKept(b: Books, a: Act, i: nat)
    requires Can(b, a) && Stories(b) && i in b.ops
    ensures i in Do(b, a).ops && Kept(b.ops[i], Do(b, a).ops[i])
  {
    assert Single(b.ops[i]);
    if a.BeginA? || a.ClaimA? || a.ClearA? {
      hide Free, Single;
    } else {
      assert a.i in b.ops && Single(b.ops[a.i]);
      assert Kept(b.ops[i], b.ops[i]);
      hide Do, Can, Single, Kept, Stories;
      if JustMoves(a) {
        MoveKept(b, a);
      } else if a.ReleasePendingA? || a.ReleaseOutstandingA? || a.TakeA? {
        ReleasesKept(b, a);
      } else {
        CountsKept(b, a);
      }
    }
  }

  lemma StepKept(s: State, e: Event, i: nat)
    requires Good(s) && Enabled(s, e) && i in s.books.ops
    ensures i in Step(s, e).books.ops && Kept(s.books.ops[i], Step(s, e).books.ops[i])
  {
    StepActs(s, e);
    assert Kept(s.books.ops[i], s.books.ops[i]);
    var a := ActOf(s, e);
    hide Step, Enabled, ActOf, Do, Can, Kept, Users, Locks, Quiet, Wakes, Balanced, PinsHeld, Stories;
    if a.Some? {
      ActKept(s.books, a.value, i);
    }
  }

  lemma {:induction false} RunKept(run: seq<State>, es: seq<Event>, i: nat, m: nat, n: nat)
    requires IsRun(run, es) && m <= n < |run| && i in run[m].books.ops
    ensures i in run[n].books.ops && Kept(run[m].books.ops[i], run[n].books.ops[i])
    decreases n
  {
    hide Sound, Enabled, Step, Initial, Kept;
    if m == n {
      KeptAll(run[m].books.ops[i], run[m].books.ops[i], run[m].books.ops[i]);
    } else {
      RunKept(run, es, i, m, n - 1);
      EveryRunSound(run, es, n - 1);
      SoundKept(run[n - 1], es[n - 1], i);
      KeptAll(run[m].books.ops[i], run[n - 1].books.ops[i], run[n].books.ops[i]);
    }
  }

  lemma SoundKept(s: State, e: Event, i: nat)
    requires Sound(s) && Enabled(s, e) && i in s.books.ops
    ensures i in Step(s, e).books.ops && Kept(s.books.ops[i], Step(s, e).books.ops[i])
  {
    hide Good, Owned, Enabled, Step, Kept;
    StepKept(s, e, i);
  }

  lemma KeptAll(o: Op, p: Op, q: Op)
    ensures Kept(o, o)
    ensures Kept(o, p) && Kept(p, q) ==> Kept(o, q)
  {
  }

  /**
   A timer that CancelTimeout found pending is never delivered. A delivered one calls its
   handler once and is released once, and nothing that is gone ever changes again.
   */
  lemma TimerFates(run: seq<State>, es: seq<Event>, i: nat, m: nat, n: nat)
    requires IsRun(run, es) && m <= n < |run| && i in run[m].books.ops
    ensures i in run[n].books.ops
    ensures var o, p := run[m].books.ops[i], run[n].books.ops[i];
            && (o.cancelled ==> p.calls == 0 && FateOf(p.stage) == Some(Cancelled))
            && p.calls <= 1 && p.releases <= 1
            && (p.calls == 1 <==> FateOf(p.stage) == Some(Delivered))
            && (p.stage.Gone? <==> p.releases == 1)
            && (o.stage.Gone? ==> p == o)
            && (p.timer && p.stage.Gone? ==> (p.armed <==> !p.stage.fate.Failed?))
  {
    RunKept(run, es, i, m, n);
    EveryRunSound(run, es, m);
    EveryRunSound(run, es, n);
    hide IsRun, Users, Locks, Quiet, Wakes, Owned, Shut, Balanced, PinsHeld;
    assert Single(run[m].books.ops[i]) && Single(run[n].books.ops[i]);
  }

  /** Stop never meets a timer that is still being published. */
  lemma StopSeesNoPublishing(run: seq<State>, es: seq<Event>, n: nat, i: nat)
    requires IsRun(run, es) && n < |run| && !run[n].stop.Off? && i in run[n].books.ops
    ensures !run[n].books.ops[i].stage.Publishing?
  {
    EveryRunSound(run, es, n);
    hide IsRun, Users, Quiet, Wakes, Owned, Shut, IocpBooks.Inv;
    StopNonePublishing(run[n]);
  }

  /** When Stop is done, every operation ever begun has met its fate and been released once. */
  lemma AllReleased(run: seq<State>, es: seq<Event>, n: nat, i: nat)
    requires IsRun(run, es) && n < |run| && run[n].stop.Finished? && i in run[n].books.ops
    ensures run[n].books.ops[i].stage.Gone? && run[n].books.ops[i].releases == 1
  {
    EveryRunSound(run, es, n);
    hide IsRun, Users, Wakes, Owned, Shut, PinsHeld;
    var b := run[n].books;
    assert Single(b.ops[i]);
    assert Value(b, Outstanding) == Count(b.ops, Outstanding);
    assert Members(b.ops, Outstanding) == {};
    assert i !in Members(b.ops, Outstanding);
  }

  /** No worker leaves while anything is outstanding or the service runs. */
  lemma WorkersStay(run: seq<State>, es: seq<Event>, n: nat, w: Worker)
    requires IsRun(run, es) && n < |run| && w in run[n].workers && run[n].workers[w].Exited?
    ensures !Running(run[n].stop) && run[n].books.outstanding == 0
  {
    EveryRunSound(run, es, n);
    hide IsRun, Users, Wakes, Owned, Shut, IocpBooks.Inv, Locks;
    QuietWorker(run[n], w);
  }

  /** A worker never finds the port gone: those two branches are dead. */
  lemma PortOutlivesWorkers(run: seq<State>, es: seq<Event>, n: nat, w: Worker)
    requires IsRun(run, es) && n < |run| && w in run[n].workers && !run[n].workers[w].Exited?
    ensures HasPort(run[n].stop)
  {
    EveryRunSound(run, es, n);
    hide IsRun, Users, Wakes, Owned, Shut, IocpBooks.Inv, Locks;
    QuietWorker(run[n], w);
  }
}
