/** What every step of the completion port service keeps, in every interleaving. */
module IocpProofs {
  import opened Bytes
  import opened IocpBooks
  import opened Iocp

  // ----- The invariants

  predicate Leased(pc: Pc) {
    pc.Posting? || pc.Blocked? || pc.GotOp? || pc.GotNothing?
  }

  predicate Uses(s: State, who: Token) {
    match who
    case ByPoster(i) => i in s.posters && (s.posters[i].Pinning? || s.posters[i].Unpinning?)
    case ByWorker(w) => w in s.workers && Leased(s.workers[w])
    case ByCanceller(i) => i in s.cancellers && s.cancellers[i]
  }

  /** The user count is the number of threads that hold the port. */
  ghost predicate Users(s: State) {
    && s.users == |s.pinners| && !s.fault
    && forall x :: x in s.pinners <==> Uses(s, x)
  }

  /** Whoever is in the middle of a post holds the lifecycle lock, so Stop has not got it. */
  ghost predicate Locks(s: State) {
    && (s.posters != map[] ==> Running(s.stop))
    && (forall i :: i in s.books.ops && Busy(s.books.ops[i].stage) ==> i in s.posters)
  }

  /** The worker believes that the shutdown is complete. */
  predicate Over(pc: Pc) {
    match pc
    case Waiting(t) => t.Done?
    case Blocked(t) => t.Done?
    case GotNothing(t) => t.Done?
    case Woken(t) => t.Done?
    case Checking(t) => t.Done?
    case Exited => true
    case _ => false
  }

  predicate Drained(stop: StopPc) {
    stop.Rewaking? || stop.Joining? || stop.Idling? || stop.Finished?
  }

  /** Workers only leave, and Stop only moves on, once nothing is outstanding. */
  ghost predicate Quiet(s: State) {
    && (forall w :: w in s.workers && Over(s.workers[w]) ==> !Running(s.stop) && s.books.outstanding == 0)
    && (forall w :: w in s.workers && (s.workers[w].Asking? || s.workers[w].Checking?) ==> !Running(s.stop))
    && (Drained(s.stop) ==> s.books.outstanding == 0)
    && (!HasPort(s.stop) ==> AllExited(s.workers))
    && s.workers != map[]
  }

  /** The worker will leave without another packet. */
  predicate Settled(pc: Pc) {
    pc.Exited? || pc.GotNothing? || pc.Woken? || pc.Checking?
  }

  ghost function Unsettled(workers: map<Worker, Pc>): set<Worker> {
    set w | w in workers && !Settled(workers[w])
  }

  /** Once drained, there is a wake-up in the port for every worker that may still need one. */
  ghost predicate Wakes(s: State) {
    && (s.stop.Waking? || s.stop.Rewaking? ==> s.stop.k <= |s.workers|)
    && (s.stop.Rewaking? ==> |Unsettled(s.workers)| <= s.wakes + s.lost + (|s.workers| - s.stop.k))
    && (s.stop.Joining? ==> |Unsettled(s.workers)| <= s.wakes + s.lost)
  }

  ghost predicate Good(s: State) {
    IocpBooks.Inv(s.books) && Users(s) && Locks(s) && Quiet(s) && Wakes(s)
  }

  // ----- Books

  lemma StopNonePublishing(s: State)
    requires Locks(s) && !Running(s.stop)
    ensures NonePublishing(s.books)
  {
  }

  /** The action a step takes on the books, if any. */
  function ActOf(s: State, e: Event): Option<Act>
    requires Enabled(s, e)
  {
    match e
    case Book(a) => Some(a)
    case Post(i, p) =>
      (match p
       case BeginE(ctx, handle, socket, timer) => Some(BeginA(i, ctx, handle, socket, timer))
       case TellE(ok) => if s.books.ops[i].stage.Publishing? then None else Some(KernelA(i, ok))
       case PublishE => Some(PublishA(i, s.posters[i].ok))
       case _ => None)
    case Cancelling(i, c) => if c.CancelE? then Some(CancelA(i)) else None
    case Work(w, x) =>
      (match x
       case SweepE(due) => Some(ClaimA(due, w))
       case ClaimedE(i, ok) => Some(PostClaimA(i, ok))
       case TakeE(i) => Some(TakeA(i))
       case _ => None)
    case Stopping(x) => if x.ClearE? then Some(ClearA) else None
  }

  lemma StepActs(s: State, e: Event)
    requires Enabled(s, e)
    ensures ActOf(s, e).Some? ==> Can(s.books, ActOf(s, e).value)
    ensures Step(s, e).books == (if ActOf(s, e).None? then s.books else Do(s.books, ActOf(s, e).value))
  {
    hide Do;
  }

  lemma StepBooks(s: State, e: Event)
    requires Good(s) && Enabled(s, e)
    ensures IocpBooks.Inv(Step(s, e).books)
  {
    StepActs(s, e);
    var a := ActOf(s, e);
    if a.Some? {
      assert a.value.ClearA? ==> e.Stopping? && s.stop.Clearing?;
      hide Do, Can, Step, ActOf, IocpBooks.Inv, Users, Quiet, Wakes, NonePublishing;
      if a.value.ClearA? {
        StopNonePublishing(s);
      }
      DoInv(s.books, a.value);
    }
  }

  // ----- Users

  lemma PinUsers(s: State, t: State, who: Token)
    requires Users(s) && t.users == s.users + 1 && t.pinners == s.pinners + {who} && !Uses(s, who) && t.fault == s.fault
    requires forall x :: Uses(t, x) <==> x == who || Uses(s, x)
    ensures Users(t)
  {
    hide Uses;
  }

  lemma UnpinUsers(s: State, t: State, who: Token)
    requires Users(s) && Uses(s, who) && t.pinners == s.pinners - {who}
    requires s.users > 0 ==> t.users == s.users - 1 && t.fault == s.fault
    requires forall x :: Uses(t, x) <==> x != who && Uses(s, x)
    ensures Users(t)
  {
    hide Uses;
    assert who in s.pinners;
  }

  lemma SameUsers(s: State, t: State)
    requires Users(s) && t.pinners == s.pinners && t.users == s.users && t.fault == s.fault
    requires forall x :: Uses(t, x) <==> Uses(s, x)
    ensures Users(t)
  {
    hide Uses;
  }

  lemma PostUsers(s: State, i: nat, e: PostEvent)
    requires Users(s) && CanPost(s, i, e)
    ensures Users(DoPost(s, i, e))
  {
    hide Users, Do, Can;
    var t := DoPost(s, i, e);
    match e
    case PinE => PinUsers(s, t, ByPoster(i));
    case UnpinE => UnpinUsers(s, t, ByPoster(i));
    case _ => SameUsers(s, t);
  }

  lemma CancelUsers(s: State, i: nat, e: CancelEvent)
    requires Users(s) && CanCancel(s, i, e)
    ensures Users(DoCancel(s, i, e))
  {
    hide Users, Do, Can;
    var t := DoCancel(s, i, e);
    match e
    case CancelE => SameUsers(s, t);
    case CancelLeaseE =>
      if HasPort(s.stop) {
        PinUsers(s, t, ByCanceller(i));
      } else {
        SameUsers(s, t);
      }
    case CancelWakeE(_) => UnpinUsers(s, t, ByCanceller(i));
  }

  lemma LookUsers(s: State, w: Worker, pc: Pc)
    requires Users(s) && w in s.workers && pc == s.workers[w] && CanLook(s, pc)
    ensures Users(Look(s, w, pc))
  {
    hide Users, Do, Can;
    var t := Look(s, w, pc);
    if HasPort(s.stop) && (pc.Leasing? || pc.Waiting?) {
      PinUsers(s, t, ByWorker(w));
    } else if pc.GotOp? || pc.GotNothing? {
      UnpinUsers(s, t, ByWorker(w));
    } else {
      SameUsers(s, t);
    }
  }

  lemma WorkUsers(s: State, w: Worker, e: WorkEvent)
    requires Users(s) && CanWork(s, w, e)
    ensures Users(DoWork(s, w, e))
  {
    hide Users, Do, Can, Look, CanLook, NoneClaimed;
    var t := DoWork(s, w, e);
    if e.LookE? {
      LookUsers(s, w, s.workers[w]);
    } else if e.NextE? && s.workers[w].Posting? {
      UnpinUsers(s, t, ByWorker(w));
    } else {
      SameUsers(s, t);
    }
  }

  lemma StepUsers(s: State, e: Event)
    requires Users(s) && Enabled(s, e)
    ensures Users(Step(s, e))
  {
    hide Users, Do, Can, DoPost, CanPost, CanCancel, DoCancel, CanWork, DoWork, AllExited;
    match e
    case Book(_) => SameUsers(s, Step(s, e));
    case Post(i, p) => PostUsers(s, i, p);
    case Cancelling(i, c) => CancelUsers(s, i, c);
    case Work(w, x) => WorkUsers(s, w, x);
    case Stopping(x) => SameUsers(s, Step(s, e));
  }

  // ----- The lock

  lemma BooksLocks(b: Books, a: Act, i: nat)
    requires Can(b, a) && i in Do(b, a).ops && Busy(Do(b, a).ops[i].stage)
    ensures (a.BeginA? && i == a.i) || (i in b.ops && Busy(b.ops[i].stage))
  {
    hide Free, AddSocket, AddPending, AddOutstanding, Unregister, ReleasePending, ReleaseOutstanding, Take;
    if a.AddSocketA? || a.AddPendingA? || a.AddOutstandingA? || a.UnregisterA? {
      CountsStage(b, a.i);
    } else if a.ReleasePendingA? || a.ReleaseOutstandingA? || a.TakeA? {
      ReleaseStage(b, a.i);
    }
  }

  lemma CountsStage(b: Books, i: nat)
    requires i in b.ops
    ensures AddSocket(b, i).ops == Move(b, i, Registered).ops
    ensures AddPending(b, i).ops == Move(b, i, Pinned).ops
    ensures AddOutstanding(b, i).ops == Move(b, i, Added).ops
    ensures Unregister(b, i).ops == Move(b, i, if b.ops[i].stage.Failing? then Leaving(Failed) else Unregistered).ops
  {
  }

  lemma ReleaseStage(b: Books, i: nat)
    requires i in b.ops
    ensures b.ops[i].stage.Leaving? ==> ReleasePending(b, i).ops == Move(b, i, Left(b.ops[i].stage.fate)).ops
    ensures b.ops[i].stage.Left? ==>
              var t := ReleaseOutstanding(b, i).ops;
              t == b.ops[i := t[i]] && t[i].stage == Gone(b.ops[i].stage.fate)
    ensures var t := Take(b, i).ops; t == b.ops[i := t[i]] && (t[i].stage.Taken? || t[i].stage == Left(Discarded))
  {
  }

  /** Only a new post makes a busy operation, and only a finished one lets its thread go. */
  lemma PostPosters(s: State, i: nat, e: PostEvent)
    requires CanPost(s, i, e)
    ensures var t := DoPost(s, i, e);
            && (forall j :: j in s.posters && j !in t.posters ==> j in s.books.ops && !Busy(s.books.ops[j].stage) && e.ReturnE?)
            && (e.BeginE? ==> i in t.posters)
            && (t.posters != map[] ==> e.BeginE? || s.posters != map[])
            && t.stop == s.stop
  {
    hide Do, Can;
  }

  lemma StepPosters(s: State, e: Event)
    requires Enabled(s, e)
    ensures var t := Step(s, e);
            && (!e.Post? ==> t.posters == s.posters)
            && (!e.Stopping? ==> t.stop == s.stop)
            && (Running(s.stop) && !Running(t.stop) ==> s.posters == map[])
            && (ActOf(s, e).Some? && ActOf(s, e).value.BeginA? ==> e.Post? && e.p.BeginE? && e.i == ActOf(s, e).value.i)
  {
    hide Do, Can, CanPost, DoPost, CanCancel, DoCancel, CanWork, DoWork, CanStop, DoStop, ActOf;
    ActBegins(s, e);
    match e
    case Post(i, p) => PostPosters(s, i, p);
    case Cancelling(i, c) => CancelWorkers(s, i, c);
    case Work(w, x) => WorkFrame(s, w, x);
    case Stopping(x) => StopPosters(s, x);
    case Book(_) =>
  }

  lemma ActBegins(s: State, e: Event)
    requires Enabled(s, e)
    ensures ActOf(s, e).Some? && ActOf(s, e).value.BeginA? ==> e.Post? && e.p.BeginE? && e.i == ActOf(s, e).value.i
  {
    hide Can, CanCancel, CanWork, CanStop;
  }

  lemma WorkFrame(s: State, w: Worker, e: WorkEvent)
    requires CanWork(s, w, e)
    ensures DoWork(s, w, e).posters == s.posters && DoWork(s, w, e).stop == s.stop
  {
    hide Do, Can, Look, CanLook, NoneClaimed, Unpin;
    if e.LookE? {
      LookFrame(s, w, s.workers[w]);
    }
  }

  lemma StopPosters(s: State, e: StopEvent)
    requires CanStop(s, e)
    ensures DoStop(s, e).posters == s.posters && (Running(s.stop) ==> s.posters == map[])
  {
    hide Do, AllExited;
  }

  lemma StepLocks(s: State, e: Event)
    requires Locks(s) && Enabled(s, e)
    ensures Locks(Step(s, e))
  {
    var t := Step(s, e);
    StepActs(s, e);
    StepPosters(s, e);
    var a := ActOf(s, e);
    if e.Post? {
      PostPosters(s, e.i, e.p);
      assert e.p.BeginE? ==> Running(s.stop);
      assert e.p.ReturnE? ==> a.None?;
    }
    hide Step, ActOf, Do, Can, Enabled, Busy, CanPost, DoPost, Running;
    forall i | i in t.books.ops && Busy(t.books.ops[i].stage) ensures i in t.posters {
      if a.Some? {
        BooksLocks(s.books, a.value, i);
      }
    }
  }

  // ----- Nothing new after Stop has begun

  lemma ActOutstanding(b: Books, a: Act)
    requires Can(b, a)
    ensures Do(b, a).outstanding <= b.outstanding || (a.AddOutstandingA? && AtStage(b, a.i, Pinned))
  {
    hide Free, AddSocket, AddPending, UnregisterSocket, Take, ReleasePending;
    if a.TakeA? {
      TakeSame(b, a.i);
    } else if a.AddSocketA? || a.AddPendingA? {
      AddSame(b, a.i);
    }
  }

  lemma TakeSame(b: Books, i: nat)
    requires i in b.ops
    ensures Take(b, i).outstanding == b.outstanding
  {
  }

  lemma AddSame(b: Books, i: nat)
    requires i in b.ops
    ensures AddSocket(b, i).outstanding == AddPending(b, i).outstanding == b.outstanding
  {
  }

  /** Once Stop has cleared the running flag, the outstanding count never rises again. */
  lemma NeverRises(s: State, e: Event)
    requires Good(s) && Enabled(s, e) && !Running(s.stop)
    ensures 0 <= Step(s, e).books.outstanding <= s.books.outstanding
  {
    StepActs(s, e);
    StepBooks(s, e);
    var a := ActOf(s, e);
    var t := Step(s, e);
    hide Step, ActOf, Do, Can, Enabled, Users, Quiet, Wakes, PinsHeld, Stories, Count;
    assert Value(t.books, Outstanding) == Count(t.books.ops, Outstanding);
    if a.Some? {
      ActOutstanding(s.books, a.value);
    }
  }

  // ----- Quiet

  lemma NotNegative(b: Books)
    requires IocpBooks.Inv(b)
    ensures b.outstanding >= 0
  {
    hide PinsHeld, Stories, Count;
    assert Value(b, Outstanding) == Count(b.ops, Outstanding);
  }

  lemma SameQuiet(s: State, t: State)
    requires Quiet(s) && t.workers == s.workers && t.stop == s.stop
    requires !Running(s.stop) ==> 0 <= t.books.outstanding <= s.books.outstanding
    ensures Quiet(t)
  {
    hide Over, HasPort, AllExited;
  }

  lemma AtQuiet(s: State, t: State, w: Worker, pc: Pc)
    requires Quiet(s) && w in s.workers && t.workers == s.workers[w := pc] && t.stop == s.stop
    requires !Running(s.stop) ==> 0 <= t.books.outstanding <= s.books.outstanding
    requires Over(pc) ==> !Running(s.stop) && t.books.outstanding == 0
    requires pc.Asking? || pc.Checking? ==> !Running(s.stop)
    requires !s.workers[w].Exited?
    ensures Quiet(t)
  {
    hide Over, HasPort;
  }

  /** A worker's own step moves that worker only, and it gives up only when all is over. */
  lemma LookFrame(s: State, w: Worker, pc: Pc)
    requires w in s.workers && pc == s.workers[w] && CanLook(s, pc)
    ensures var t := Look(s, w, pc);
            && w in t.workers && t.workers == s.workers[w := t.workers[w]]
            && t == s.(workers := t.workers, users := t.users, pinners := t.pinners, fault := t.fault)
  {
    hide Pin, Unpin;
  }

  lemma LookPc(s: State, w: Worker, pc: Pc)
    requires w in s.workers && pc == s.workers[w] && CanLook(s, pc)
    ensures w in Look(s, w, pc).workers
    ensures var next := Look(s, w, pc).workers[w];
            && (Over(next) ==> Over(pc) || !HasPort(s.stop) || (s.books.outstanding == 0 && (pc.Asking? || pc.Checking?)))
            && (next.Asking? || next.Checking? ==> !Running(s.stop))
            && (Settled(pc) ==> Settled(next) || Running(s.stop) || s.books.outstanding != 0)
            && !pc.Exited?
  {
    hide Pin, Unpin;
  }

  lemma LookQuiet(s: State, w: Worker, t: State)
    requires Quiet(s) && w in s.workers && CanLook(s, s.workers[w]) && t == Look(s, w, s.workers[w])
    requires s.books.outstanding >= 0
    ensures Quiet(t)
  {
    hide Quiet, Look, Over, CanLook;
    QuietWorker(s, w);
    LookFrame(s, w, s.workers[w]);
    LookPc(s, w, s.workers[w]);
    AtQuiet(s, t, w, t.workers[w]);
  }

  lemma QuietWorker(s: State, w: Worker)
    requires Quiet(s) && w in s.workers
    ensures Over(s.workers[w]) ==> !Running(s.stop) && s.books.outstanding == 0
    ensures s.workers[w].Asking? || s.workers[w].Checking? ==> !Running(s.stop)
    ensures !HasPort(s.stop) ==> s.workers[w].Exited?
  {
  }

  lemma WorkQuiet(s: State, w: Worker, e: WorkEvent, t: State)
    requires Quiet(s) && CanWork(s, w, e) && t == DoWork(s, w, e) && s.books.outstanding >= 0
    requires !Running(s.stop) ==> 0 <= t.books.outstanding <= s.books.outstanding
    ensures Quiet(t)
  {
    hide Quiet, Look, CanLook, Do, Can, NoneClaimed;
    if e.LookE? {
      LookQuiet(s, w, t);
    } else {
      QuietWorker(s, w);
      if e.ClaimedE? {
        SameQuiet(s, t);
      } else {
        AtQuiet(s, t, w, t.workers[w]);
      }
    }
  }

  lemma StopQuiet(s: State, e: StopEvent, t: State)
    requires Quiet(s) && CanStop(s, e) && t == DoStop(s, e)
    requires !Running(s.stop) ==> 0 <= t.books.outstanding <= s.books.outstanding
    ensures Quiet(t)
  {
    hide Do, Over, Drained, AllExited;
    StopDrains(s, e);
  }

  lemma StopDrains(s: State, e: StopEvent)
    requires CanStop(s, e)
    ensures var t := DoStop(s, e);
            && (Drained(t.stop) ==> Drained(s.stop) || (s.stop.Draining? && s.books.outstanding == 0 && t.books == s.books))
            && (!HasPort(t.stop) ==> AllExited(s.workers) || !HasPort(s.stop))
            && (Drained(s.stop) ==> !Running(s.stop))
            && t.workers == s.workers && !Running(t.stop)
  {
    hide Do, AllExited;
  }

  lemma StepQuiet(s: State, e: Event)
    requires Good(s) && Enabled(s, e)
    ensures Quiet(Step(s, e))
  {
    assert s.books.outstanding >= 0 by { NotNegative(s.books); }
    hide Quiet, Users, Locks, Wakes, IocpBooks.Inv, Do, Can, CanPost, DoPost, CanCancel, DoCancel, CanWork, DoWork, CanStop, DoStop;
    if !Running(s.stop) {
      NeverRises(s, e);
    }
    var t := Step(s, e);
    match e
    case Book(_) => SameQuiet(s, t);
    case Post(i, p) =>
      PostPosters(s, i, p);
      assert t.workers == s.workers by { PostWorkers(s, i, p); }
      SameQuiet(s, t);
    case Cancelling(i, c) =>
      CancelWorkers(s, i, c);
      SameQuiet(s, t);
    case Work(w, x) => WorkQuiet(s, w, x, t);
    case Stopping(x) => StopQuiet(s, x, t);
  }

  lemma PostWorkers(s: State, i: nat, e: PostEvent)
    requires CanPost(s, i, e)
    ensures DoPost(s, i, e).workers == s.workers && DoPost(s, i, e).wakes >= s.wakes && DoPost(s, i, e).lost == s.lost
    ensures DoPost(s, i, e).cancellers == s.cancellers
  {
    hide Do, Can;
  }

  lemma CancelWorkers(s: State, i: nat, e: CancelEvent)
    requires CanCancel(s, i, e)
    ensures var t := DoCancel(s, i, e);
            t.workers == s.workers && t.wakes >= s.wakes && t.lost == s.lost && t.stop == s.stop && t.posters == s.posters
  {
    hide Do, Can;
  }

  // ----- Wake-ups

  lemma UnsettledAt(workers: map<Worker, Pc>, w: Worker, pc: Pc)
    requires w in workers
    ensures |workers[w := pc]| == |workers|
    ensures Settled(workers[w]) && Settled(pc) ==> Unsettled(workers[w := pc]) == Unsettled(workers)
    ensures !Settled(workers[w]) ==> |Unsettled(workers[w := pc])| == |Unsettled(workers)| - One(Settled(pc))
    ensures |Unsettled(workers)| <= |workers|
  {
    hide Settled;
    assert workers[w := pc].Keys == workers.Keys;
    var u := Unsettled(workers);
    var v := Unsettled(workers[w := pc]);
    if Settled(workers[w]) && Settled(pc) {
      assert u == v;
    } else if !Settled(workers[w]) {
      assert v == if Settled(pc) then u - {w} else u;
    }
    assert u + (workers.Keys - u) == workers.Keys;
  }

  lemma SameWakes(s: State, t: State)
    requires Wakes(s) && t.workers == s.workers && t.stop == s.stop && t.wakes >= s.wakes && t.lost == s.lost
    ensures Wakes(t)
  {
    hide Unsettled;
  }

  lemma AtWakes(s: State, t: State, w: Worker, pc: Pc)
    requires Wakes(s) && w in s.workers && t.workers == s.workers[w := pc] && t.stop == s.stop && t.lost == s.lost
    requires Drained(s.stop) ==> Settled(s.workers[w]) ==> Settled(pc)
    requires t.wakes >= s.wakes || (t.wakes == s.wakes - 1 && !Settled(s.workers[w]) && Settled(pc))
    ensures Wakes(t)
  {
    hide Unsettled, Settled;
    UnsettledAt(s.workers, w, pc);
  }

  lemma LookWakes(s: State, w: Worker, t: State)
    requires Wakes(s) && Quiet(s) && w in s.workers && CanLook(s, s.workers[w]) && t == Look(s, w, s.workers[w])
    ensures Wakes(t)
  {
    hide Wakes, Quiet, Look, Settled, CanLook;
    if Drained(s.stop) {
      DrainedZero(s);
    }
    LookFrame(s, w, s.workers[w]);
    LookPc(s, w, s.workers[w]);
    AtWakes(s, t, w, t.workers[w]);
  }

  lemma DrainedZero(s: State)
    requires Quiet(s) && Drained(s.stop)
    ensures s.books.outstanding == 0 && !Running(s.stop)
  {
  }

  lemma WorkWakes(s: State, w: Worker, e: WorkEvent, t: State)
    requires Wakes(s) && Quiet(s) && CanWork(s, w, e) && t == DoWork(s, w, e)
    ensures Wakes(t)
  {
    hide Wakes, Quiet, Look, CanLook, Do, Can, NoneClaimed;
    if e.LookE? {
      LookWakes(s, w, t);
    } else if e.ClaimedE? {
      SameWakes(s, t);
    } else {
      AtWakes(s, t, w, t.workers[w]);
    }
  }

  lemma StopWakes(s: State, e: StopEvent, t: State)
    requires Wakes(s) && s.workers != map[] && CanStop(s, e) && t == DoStop(s, e)
    ensures Wakes(t)
  {
    hide Do, Unsettled, Settled, AllExited;
    var w :| w in s.workers;
    UnsettledAt(s.workers, w, s.workers[w]);
  }

  lemma StepWakes(s: State, e: Event)
    requires Good(s) && Enabled(s, e)
    ensures Wakes(Step(s, e))
  {
    assert s.workers != map[];
    hide Quiet, Users, Locks, Wakes, IocpBooks.Inv, Do, Can, CanPost, DoPost, CanCancel, DoCancel, CanWork, DoWork, CanStop, DoStop;
    var t := Step(s, e);
    match e
    case Book(_) => SameWakes(s, t);
    case Post(i, p) =>
      PostPosters(s, i, p);
      PostWorkers(s, i, p);
      SameWakes(s, t);
    case Cancelling(i, c) =>
      CancelWorkers(s, i, c);
      SameWakes(s, t);
    case Work(w, x) => WorkWakes(s, w, x, t);
    case Stopping(x) => StopWakes(s, x, t);
  }

  // ----- Every reachable state

  lemma StepGood(s: State, e: Event)
    requires Good(s) && Enabled(s, e)
    ensures Good(Step(s, e))
  {
    StepBooks(s, e);
    StepUsers(s, e);
    StepLocks(s, e);
    StepQuiet(s, e);
    StepWakes(s, e);
    hide Step, Enabled, Quiet, Users, Locks, Wakes, IocpBooks.Inv;
  }

  lemma InitialGood(s: State)
    requires Initial(s)
    ensures Good(s)
  {
    hide Unsettled;
    assert forall k :: Value(EMPTY, k) == 0;
    forall k ensures Count(EMPTY.ops, k) == 0 {
      assert Members(EMPTY.ops, k) == {};
    }
  }

  /** A run: some threads' steps, one after the other, from a started service. */
  ghost predicate IsRun(run: seq<State>, es: seq<Event>) {
    && |run| == |es| + 1 && Initial(run[0])
    && forall n :: 0 <= n < |es| ==> Enabled(run[n], es[n]) && run[n + 1] == Step(run[n], es[n])
  }

  lemma {:induction false} EveryRun(run: seq<State>, es: seq<Event>, n: nat)
    requires IsRun(run, es) && n < |run|
    ensures Good(run[n])
    decreases n
  {
    hide Good, Initial, Step, Enabled;
    if n == 0 {
      InitialGood(run[0]);
    } else {
      EveryRun(run, es, n - 1);
      StepGood(run[n - 1], es[n - 1]);
    }
  }
}
