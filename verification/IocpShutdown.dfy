/**
 Shutdown always finishes: once Stop has begun, every step of every thread lowers one
 measure, and until Stop has closed the port some thread can take a step.
 */
module IocpShutdown {
  import opened Bytes
  import opened Tally
  import opened IocpBooks
  import opened Iocp
  import opened IocpProofs

  // ----- The measure

  function Rank(stage: Stage): nat {
    match stage
    case Begun => 13
    case Registered => 12
    case Pinned => 11
    case Added => 10
    case Publishing => 9
    case Armed => 8
    case Claimed(_) => 7
    case Posted => 6
    case Taken => 5
    case Unregistered => 4
    case Failing => 4
    case Leaving(_) => 3
    case Left(_) => 2
    case Gone(_) => 0
  }

  ghost function Ranks(ops: map<nat, Op>): map<nat, nat> {
    map i | i in ops :: Rank(ops[i].stage)
  }

  ghost function OpsLeft(b: Books): nat {
    Total(Ranks(b.ops), 13)
  }

  function StopLeft(stop: StopPc, n: nat): nat {
    match stop
    case Off => 2 * n + 8
    case Clearing => 2 * n + 7
    case Waking(k) => if k <= n then n - k + n + 6 else n + 6
    case Draining => n + 5
    case Rewaking(k) => if k <= n then n - k + 4 else 4
    case Joining => 3
    case Idling => 2
    case Finished => 0
  }

  ghost function CancelRanks(m: map<nat, bool>): map<nat, nat> {
    map i | i in m :: if m[i] then 1 else 2
  }

  ghost function CancelsLeft(m: map<nat, bool>): nat {
    Total(CancelRanks(m), 2)
  }

  /** How far a worker is from waiting forever or from leaving, as long as the service does not run. */
  function PcRank(pc: Pc): nat {
    match pc
    case Sweep => 20
    case Swept(_) => 19
    case Leasing(_) => 18
    case Posting(_) => 17
    case Dropping(_) => 17
    case Waiting(t) => if t.Timed? then 16 else 9
    case Blocked(t) => if t.Timed? then 15 else 8
    case GotOp(_) => 14
    case Handling(_) => 13
    case GotNothing(t) => if t.Done? then 7 else 14
    case Woken(t) => if t.Done? then 6 else 13
    case Checking(t) => if t.Done? then 5 else 12
    case Top => 11
    case Asking => 10
    case Exited => 0
  }

  ghost function PcRanks(m: map<Worker, Pc>): map<nat, nat> {
    map w | w in m :: PcRank(m[w])
  }

  ghost function WorkLeft(m: map<Worker, Pc>): nat {
    Total(PcRanks(m), 20)
  }

  ghost predicate Less(t: State, s: State) {
    || OpsLeft(t.books) < OpsLeft(s.books)
    || (OpsLeft(t.books) == OpsLeft(s.books) && LessStop(t, s))
  }

  ghost predicate LessStop(t: State, s: State) {
    var n := |s.workers|;
    || StopLeft(t.stop, n) < StopLeft(s.stop, n)
    || (t.stop == s.stop && LessCancels(t, s))
  }

  ghost predicate LessCancels(t: State, s: State) {
    || CancelsLeft(t.cancellers) < CancelsLeft(s.cancellers)
    || (t.cancellers == s.cancellers && (t.wakes < s.wakes || (t.wakes == s.wakes && WorkLeft(t.workers) < WorkLeft(s.workers))))
  }

  // ----- Every step lowers it

  lemma PutRank(b: Books, t: Books, i: nat)
    requires i in b.ops && i in t.ops && t.ops == b.ops[i := t.ops[i]] && Rank(t.ops[i].stage) < Rank(b.ops[i].stage)
    ensures OpsLeft(t) < OpsLeft(b)
  {
    TotalLess(Ranks(b.ops), Ranks(t.ops), i, 13);
  }

  lemma SweepRank(b: Books, t: Books)
    requires t.ops.Keys == b.ops.Keys && forall i :: i in b.ops ==> Rank(t.ops[i].stage) <= Rank(b.ops[i].stage)
    ensures OpsLeft(t) <= OpsLeft(b)
  {
    hide Rank;
    TotalMono(Ranks(b.ops), Ranks(t.ops), 13);
  }

  lemma MovesLess(b: Books, a: Act)
    requires Can(b, a) && JustMoves(a) && !a.BeginA?
    ensures OpsLeft(Do(b, a)) < OpsLeft(b)
  {
    hide OpsLeft, Free;
    PutRank(b, Do(b, a), a.i);
  }

  lemma CountsLess(b: Books, a: Act)
    requires Can(b, a) && (a.AddSocketA? || a.AddPendingA? || a.AddOutstandingA? || a.UnregisterA?)
    ensures OpsLeft(Do(b, a)) < OpsLeft(b)
  {
    hide OpsLeft, AddSocket, AddPending, AddOutstanding, Unregister;
    CountsStage(b, a.i);
    PutRank(b, Do(b, a), a.i);
  }

  lemma ReleasesLess(b: Books, a: Act)
    requires Can(b, a) && (a.ReleasePendingA? || a.ReleaseOutstandingA? || a.TakeA?)
    ensures OpsLeft(Do(b, a)) < OpsLeft(b)
  {
    hide OpsLeft, ReleasePending, ReleaseOutstanding, Take;
    ReleaseStage(b, a.i);
    PutRank(b, Do(b, a), a.i);
  }

  /** Every action moves its operation towards its end; the two sweeps never move one back. */
  lemma ActLess(b: Books, a: Act)
    requires Can(b, a) && !a.BeginA?
    ensures OpsLeft(Do(b, a)) <= OpsLeft(b)
    ensures !a.ClaimA? && !a.ClearA? ==> OpsLeft(Do(b, a)) < OpsLeft(b)
  {
    if a.ClaimA? {
      assert Do(b, a) == Claim(b, a.due, a.w);
      hide OpsLeft;
      SweepRank(b, Claim(b, a.due, a.w));
    } else if a.ClearA? {
      hide OpsLeft;
      SweepRank(b, ClearTimers(b));
    } else {
      hide Do, OpsLeft, Can;
      if JustMoves(a) {
        MovesLess(b, a);
      } else if a.ReleasePendingA? || a.ReleaseOutstandingA? || a.TakeA? {
        ReleasesLess(b, a);
      } else {
        CountsLess(b, a);
      }
    }
  }

  lemma AtLess(m: map<Worker, Pc>, w: Worker, pc: Pc)
    requires w in m && PcRank(pc) < PcRank(m[w])
    ensures WorkLeft(m[w := pc]) < WorkLeft(m)
  {
    TotalLess(PcRanks(m), PcRanks(m[w := pc]), w, 20);
  }

  lemma CancelLess(m: map<nat, bool>, i: nat)
    requires i in m
    ensures CancelsLeft(m - {i}) < CancelsLeft(m)
    ensures !m[i] ==> CancelsLeft(m[i := true]) < CancelsLeft(m)
  {
    TotalLess(CancelRanks(m), CancelRanks(m - {i}), i, 2);
    if !m[i] {
      TotalLess(CancelRanks(m), CancelRanks(m[i := true]), i, 2);
    }
  }

  lemma LookRank(s: State, w: Worker, pc: Pc)
    requires w in s.workers && pc == s.workers[w] && CanLook(s, pc) && !Running(s.stop)
    requires Over(pc) ==> s.books.outstanding == 0
    ensures w in Look(s, w, pc).workers && PcRank(Look(s, w, pc).workers[w]) < PcRank(pc)
  {
    hide Pin, Unpin;
  }

  lemma LookLess(s: State, w: Worker)
    requires Quiet(s) && w in s.workers && CanLook(s, s.workers[w]) && !Running(s.stop)
    ensures Less(Look(s, w, s.workers[w]), s)
  {
    hide Quiet, Look, CanLook, WorkLeft, PcRank, OpsLeft, CancelsLeft, Over;
    QuietWorker(s, w);
    LookFrame(s, w, s.workers[w]);
    LookRank(s, w, s.workers[w]);
    AtLess(s.workers, w, Look(s, w, s.workers[w]).workers[w]);
  }

  lemma WorkLess(s: State, w: Worker, e: WorkEvent)
    requires Quiet(s) && CanWork(s, w, e) && !Running(s.stop)
    ensures Less(DoWork(s, w, e), s)
  {
    hide Quiet, Look, CanLook, WorkLeft, OpsLeft, CancelsLeft, Over, Do, Can, NoneClaimed;
    match e
    case LookE => LookLess(s, w);
    case SweepE(due) =>
      ActLess(s.books, ClaimA(due, w));
      AtLess(s.workers, w, DoWork(s, w, e).workers[w]);
    case ClaimedE(i, ok) =>
      assert Can(s.books, PostClaimA(i, ok)) by { ClaimCan(s.books, i, ok); }
      ActLess(s.books, PostClaimA(i, ok));
    case NextE => AtLess(s.workers, w, Waiting(s.workers[w].n));
    case TakeE(i) => ActLess(s.books, TakeA(i));
    case WakeE =>
    case TimeoutE => AtLess(s.workers, w, GotNothing(s.workers[w].t));
  }

  lemma ClaimCan(b: Books, i: nat, ok: bool)
    requires i in b.ops && b.ops[i].stage.Claimed?
    ensures Can(b, PostClaimA(i, ok))
  {
  }

  lemma CancellingLess(s: State, i: nat, e: CancelEvent)
    requires CanCancel(s, i, e)
    ensures Less(DoCancel(s, i, e), s)
  {
    hide WorkLeft, OpsLeft, CancelsLeft, Do, Can;
    if e.CancelE? {
      ActLess(s.books, CancelA(i));
    } else {
      CancelLess(s.cancellers, i);
    }
  }

  lemma StoppingLess(s: State, e: StopEvent)
    requires CanStop(s, e)
    ensures Less(DoStop(s, e), s)
  {
    hide LessCancels, OpsLeft, StopLeft, CanStop, DoStop, Do, Can;
    StopAdvances(s, e);
    if e.ClearE? {
      ClearCan(s.books);
      ActLess(s.books, ClearA);
    }
  }

  lemma StopAdvances(s: State, e: StopEvent)
    requires CanStop(s, e)
    ensures Can(s.books, ClearA)
    ensures var t := DoStop(s, e);
            && StopLeft(t.stop, |s.workers|) < StopLeft(s.stop, |s.workers|)
            && t.books == (if e.ClearE? then Do(s.books, ClearA) else s.books)
  {
    hide Do, AllExited;
  }

  lemma ClearCan(b: Books)
    ensures Can(b, ClearA)
  {
  }

  lemma PostRuns(s: State, i: nat, e: PostEvent)
    requires Locks(s) && CanPost(s, i, e)
    ensures Running(s.stop)
  {
    hide Can;
    assert e.BeginE? || i in s.posters;
  }

  /** Once Stop has begun, whatever happens next is a step towards its end. */
  lemma EveryStepLess(s: State, e: Event)
    requires Good(s) && Enabled(s, e) && !Running(s.stop)
    ensures Less(Step(s, e), s)
  {
    hide IocpBooks.Inv, Users, Quiet, Wakes, Locks, CanPost, DoPost, CanCancel, DoCancel, CanWork, DoWork, CanStop, DoStop, Less, Do, Can, Plainly;
    match e
    case Book(a) => BookLess(s, a);
    case Post(i, p) => PostRuns(s, i, p);
    case Cancelling(i, c) => CancellingLess(s, i, c);
    case Work(w, x) => WorkLess(s, w, x);
    case Stopping(x) => StoppingLess(s, x);
  }

  lemma BookLess(s: State, a: Act)
    requires Plainly(s.books, a) && Can(s.books, a)
    ensures Less(s.(books := Do(s.books, a)), s)
  {
    assert !a.BeginA? && !a.ClaimA? && !a.ClearA?;
    hide Do, Can, OpsLeft;
    ActLess(s.books, a);
  }

  // ----- Who moves what

  /** A worker that may hold claimed timers. */
  predicate HasClaims(pc: Pc) {
    pc.Swept? || pc.Leasing? || pc.Posting? || pc.Dropping?
  }

  /** Dequeued, and from there on its way out. */
  predicate BeyondPost(stage: Stage) {
    stage.Taken? || stage.Unregistered? || stage.Leaving? || stage.Left? || stage.Gone?
  }

  /** A claimed timer has its worker, a worker has the operation it handles, and Stop left no timer. */
  ghost predicate Owned(s: State) {
    && (forall i :: i in s.books.ops && s.books.ops[i].stage.Claimed? ==>
          s.books.ops[i].stage.w in s.workers && HasClaims(s.workers[s.books.ops[i].stage.w]))
    && (forall w :: w in s.workers && (s.workers[w].GotOp? || s.workers[w].Handling?) ==>
          s.workers[w].i in s.books.ops && BeyondPost(s.books.ops[s.workers[w].i].stage))
    && (!s.stop.Off? && !s.stop.Clearing? ==> forall i :: i in s.books.ops ==> !s.books.ops[i].stage.Armed?)
  }

  ghost predicate Mild(b: Books, t: Books) {
    && (forall i :: i in t.ops && t.ops[i].stage.Claimed? ==> i in b.ops && b.ops[i].stage == t.ops[i].stage)
    && (forall i :: i in b.ops && BeyondPost(b.ops[i].stage) ==> i in t.ops && BeyondPost(t.ops[i].stage))
  }

  /** One operation moves on: it is not claimed by that, and once beyond its post it stays there. */
  ghost predicate MovesOn(b: Books, t: Books, a: Act, i: nat) {
    && i in t.ops && t.ops == b.ops[i := t.ops[i]] && !t.ops[i].stage.Claimed?
    && (i in b.ops && BeyondPost(b.ops[i].stage) ==> BeyondPost(t.ops[i].stage))
    && (t.ops[i].stage.Armed? ==> a.PublishA? && a.i == i)
  }

  lemma JustMovesOn(b: Books, a: Act)
    requires Can(b, a) && JustMoves(a)
    ensures MovesOn(b, Do(b, a), a, a.i)
  {
    hide Free;
  }

  lemma CountsMoveOn(b: Books, a: Act)
    requires Can(b, a) && !JustMoves(a) && !a.ClaimA? && !a.ClearA?
    ensures MovesOn(b, Do(b, a), a, a.i)
  {
    hide AddSocket, AddPending, AddOutstanding, Unregister, ReleasePending, ReleaseOutstanding, Take;
    if a.AddSocketA? || a.AddPendingA? || a.AddOutstandingA? || a.UnregisterA? {
      CountsStage(b, a.i);
    } else {
      ReleaseStage(b, a.i);
    }
  }

  lemma ActMild(b: Books, a: Act)
    requires Can(b, a) && !a.ClaimA?
    ensures Mild(b, Do(b, a))
    ensures forall i :: i in Do(b, a).ops && Do(b, a).ops[i].stage.Armed? ==> (a.PublishA? && i == a.i) || (i in b.ops && b.ops[i].stage.Armed?)
    ensures a.ClearA? ==> forall i :: i in Do(b, a).ops ==> !Do(b, a).ops[i].stage.Armed?
  {
    hide Can, Do, JustMoves, BeyondPost;
    if a.ClearA? {
      ClearMild(b);
    } else if JustMoves(a) {
      JustMovesOn(b, a);
    } else {
      CountsMoveOn(b, a);
    }
  }

  lemma ClearMild(b: Books)
    requires Can(b, ClearA)
    ensures var t := Do(b, ClearA); Mild(b, t) && forall i :: i in t.ops ==> !t.ops[i].stage.Armed?
  {
  }

  lemma SameOwned(s: State, t: State)
    requires Owned(s) && Mild(s.books, t.books) && t.workers == s.workers
    requires !t.stop.Off? && !t.stop.Clearing? ==> forall i :: i in t.books.ops ==> !t.books.ops[i].stage.Armed?
    ensures Owned(t)
  {
    hide BeyondPost, HasClaims;
  }

  /** A worker that moves keeps its claims, or has none left. */
  lemma AtOwned(s: State, t: State, w: Worker, pc: Pc)
    requires Owned(s) && Mild(s.books, t.books) && w in s.workers && t.workers == s.workers[w := pc] && t.stop == s.stop
    requires HasClaims(s.workers[w]) ==> HasClaims(pc) || NoneClaimed(s.books, w)
    requires pc.GotOp? || pc.Handling? ==> pc.i in t.books.ops && BeyondPost(t.books.ops[pc.i].stage)
    requires !t.stop.Off? && !t.stop.Clearing? ==> forall i :: i in t.books.ops ==> !t.books.ops[i].stage.Armed?
    ensures Owned(t)
  {
    hide BeyondPost, HasClaims;
  }

  lemma LookOwned(s: State, w: Worker)
    requires Owned(s) && w in s.workers && CanLook(s, s.workers[w])
    ensures Owned(Look(s, w, s.workers[w]))
  {
    var pc := s.workers[w];
    var t := Look(s, w, pc);
    LookFrame(s, w, pc);
    LookClaims(s, w, pc);
    assert pc.GotOp? ==> pc.i in s.books.ops && BeyondPost(s.books.ops[pc.i].stage);
    hide Owned, Look, CanLook, BeyondPost, HasClaims;
    OwnedArmed(s);
    AtOwned(s, t, w, t.workers[w]);
  }

  lemma OwnedArmed(s: State)
    requires Owned(s)
    ensures !s.stop.Off? && !s.stop.Clearing? ==> forall i :: i in s.books.ops ==> !s.books.ops[i].stage.Armed?
  {
  }

  lemma LookClaims(s: State, w: Worker, pc: Pc)
    requires w in s.workers && pc == s.workers[w] && CanLook(s, pc)
    ensures w in Look(s, w, pc).workers
    ensures var next := Look(s, w, pc).workers[w];
            && (HasClaims(pc) ==> HasClaims(next))
            && !next.GotOp? && (next.Handling? ==> pc.GotOp? && pc.i == next.i)
  {
  }

  lemma SweepOwned(s: State, w: Worker, due: set<nat>)
    requires Owned(s) && CanWork(s, w, SweepE(due))
    ensures Owned(DoWork(s, w, SweepE(due)))
  {
  }

  lemma WorkOwned(s: State, w: Worker, e: WorkEvent)
    requires Owned(s) && CanWork(s, w, e)
    ensures Owned(DoWork(s, w, e))
  {
    hide Owned, Look, CanLook, Do, Can, NoneClaimed, Mild;
    OwnedArmed(s);
    MildSame(s.books);
    var t := DoWork(s, w, e);
    match e
    case LookE => LookOwned(s, w);
    case SweepE(due) => SweepOwned(s, w, due);
    case ClaimedE(i, ok) =>
      ClaimCan(s.books, i, ok);
      ActMild(s.books, PostClaimA(i, ok));
      SameOwned(s, t);
    case NextE => AtOwned(s, t, w, t.workers[w]);
    case TakeE(i) =>
      ActMild(s.books, TakeA(i));
      assert i in t.books.ops && BeyondPost(t.books.ops[i].stage) by { TakeBeyond(s.books, i); }
      AtOwned(s, t, w, t.workers[w]);
    case WakeE => AtOwned(s, t, w, t.workers[w]);
    case TimeoutE => AtOwned(s, t, w, t.workers[w]);
  }

  lemma TakeBeyond(b: Books, i: nat)
    requires Can(b, TakeA(i))
    ensures i in Do(b, TakeA(i)).ops && BeyondPost(Do(b, TakeA(i)).ops[i].stage)
  {
  }

  lemma MildSame(b: Books)
    ensures Mild(b, b)
  {
  }

  lemma BookOwned(s: State, t: State, a: Option<Act>)
    requires Owned(s) && Locks(s) && t.workers == s.workers && t.stop == s.stop
    requires a.Some? ==> Can(s.books, a.value) && !a.value.ClaimA? && t.books == Do(s.books, a.value)
    requires a.None? ==> t.books == s.books
    ensures Owned(t)
  {
    hide Do, Owned, Mild;
    OwnedArmed(s);
    if a.Some? {
      ActMild(s.books, a.value);
      if a.value.PublishA? {
        assert Busy(s.books.ops[a.value.i].stage);
      }
    } else {
      MildSame(s.books);
    }
    SameOwned(s, t);
  }

  lemma StopOwned(s: State, e: StopEvent)
    requires Owned(s) && CanStop(s, e)
    ensures Owned(DoStop(s, e))
  {
    hide Do, Mild, Owned, AllExited;
    OwnedArmed(s);
    if e.ClearE? {
      ClearCan(s.books);
      ActMild(s.books, ClearA);
    } else {
      MildSame(s.books);
    }
    SameOwned(s, DoStop(s, e));
  }

  lemma StepOwned(s: State, e: Event)
    requires Good(s) && Owned(s) && Enabled(s, e)
    ensures Owned(Step(s, e))
  {
    var t := Step(s, e);
    if e.Work? {
      WorkOwned(s, e.w, e.e);
    } else if e.Stopping? {
      StopOwned(s, e.st);
    } else {
      StepActs(s, e);
      StepPosters(s, e);
      if e.Post? {
        PostWorkers(s, e.i, e.p);
      } else if e.Cancelling? {
        CancelWorkers(s, e.i, e.c);
      }
      assert ActOf(s, e).Some? ==> !ActOf(s, e).value.ClaimA?;
      hide Owned, Step, Enabled, ActOf, Do, Can, DoPost, DoCancel, CanPost, CanCancel, IocpBooks.Inv, Users, Quiet, Wakes, Locks;
      BookOwned(s, t, ActOf(s, e));
    }
  }

  /** Who cancels, cancels an operation of the books. */
  ghost predicate Known(s: State) {
    forall i :: i in s.cancellers ==> i in s.books.ops
  }

  lemma ActGrows(b: Books, a: Act)
    requires Can(b, a)
    ensures b.ops.Keys <= Do(b, a).ops.Keys
  {
    if !a.ClaimA? && !a.ClearA? {
      hide Can, Do, JustMoves, BeyondPost;
      if JustMoves(a) {
        JustMovesOn(b, a);
      } else {
        CountsMoveOn(b, a);
      }
    }
  }

  lemma StepKnown(s: State, e: Event)
    requires Known(s) && Enabled(s, e)
    ensures Known(Step(s, e))
  {
    StepActs(s, e);
    var a := ActOf(s, e);
    assert forall i :: i in Step(s, e).cancellers ==> i in s.cancellers || (a == Some(CancelA(i)) && i in s.books.ops) by {
      CancellersFrom(s, e);
    }
    hide Step, Enabled, ActOf, Do, Can;
    if a.Some? {
      ActGrows(s.books, a.value);
    }
  }

  lemma CancellersFrom(s: State, e: Event)
    requires Enabled(s, e)
    ensures forall i :: i in Step(s, e).cancellers ==> i in s.cancellers || (ActOf(s, e) == Some(CancelA(i)) && i in s.books.ops)
  {
    hide Do, CanPost, DoPost, CanWork, DoWork, CanStop, DoStop;
    match e
    case Post(i, p) => PostWorkers(s, i, p);
    case Work(w, x) => WorkCancellers(s, w, x);
    case Stopping(x) => StopCancellers(s, x);
    case _ =>
  }

  lemma WorkCancellers(s: State, w: Worker, e: WorkEvent)
    requires CanWork(s, w, e)
    ensures DoWork(s, w, e).cancellers == s.cancellers
  {
    hide Do, Can, Look, CanLook, NoneClaimed, Unpin;
    if e.LookE? {
      LookFrame(s, w, s.workers[w]);
    }
  }

  lemma StopCancellers(s: State, e: StopEvent)
    requires CanStop(s, e)
    ensures DoStop(s, e).cancellers == s.cancellers
  {
    hide Do, AllExited;
  }

  // ----- Some thread can always move

  /** Steps of the service's own threads, not of callers that start something new. */
  predicate Internal(e: Event) {
    match e
    case Post(_, _) => false
    case Cancelling(_, c) => !c.CancelE?
    case Stopping(x) => !x.StopE?
    case _ => true
  }

  lemma OpMoves(b: Books, i: nat) returns (a: Act)
    requires i in b.ops && BeyondPost(b.ops[i].stage) && !b.ops[i].stage.Gone?
    ensures Plainly(b, a) && Can(b, a)
  {
    match b.ops[i].stage
    case Taken => a := UnregisterA(i);
    case Unregistered => a := DispatchA(i);
    case Leaving(_) => a := ReleasePendingA(i);
    case Left(_) => a := ReleaseOutstandingA(i);
  }

  lemma ClaimsMove(s: State, w: Worker) returns (e: Event)
    requires w in s.workers && (s.workers[w].Posting? || s.workers[w].Dropping?)
    ensures Internal(e) && Enabled(s, e)
  {
    hide Can;
    if NoneClaimed(s.books, w) {
      e := Work(w, NextE);
    } else {
      var i :| i in s.books.ops && s.books.ops[i].stage == Claimed(w);
      e := Work(w, ClaimedE(i, false));
    }
  }

  /** A worker that has not left can move, unless it waits for a packet. */
  lemma WorkerMoves(s: State, w: Worker) returns (e: Event)
    requires Owned(s) && w in s.workers && !Locked(s.stop) && !s.workers[w].Exited? && !s.workers[w].Blocked?
    ensures Internal(e) && Enabled(s, e)
  {
    var pc := s.workers[w];
    match pc
    case Posting(_) => e := ClaimsMove(s, w);
    case Dropping(_) => e := ClaimsMove(s, w);
    case Sweep =>
      e := Work(w, SweepE({}));
    case Handling(i) =>
      if s.books.ops[i].stage.Gone? {
        e := Work(w, LookE);
      } else {
        var a := OpMoves(s.books, i);
        e := Book(a);
      }
    case _ => e := Work(w, LookE);
  }

  lemma DrainMoves(s: State) returns (e: Event)
    requires Good(s) && Owned(s) && s.stop.Draining? && s.books.outstanding > 0
    ensures Internal(e) && Enabled(s, e)
  {
    var i := SomeOutstanding(s);
    hide IocpBooks.Inv, Users, Wakes, CanWork, CanLook;
    match s.books.ops[i].stage
    case Claimed(w) => e := WorkerMoves(s, w);
    case Failing => e := Book(UnregisterA(i));
    case Posted => e := PacketMoves(s, i);
    case Taken => var a := OpMoves(s.books, i); e := Book(a);
    case Unregistered => var a := OpMoves(s.books, i); e := Book(a);
    case Leaving(_) => var a := OpMoves(s.books, i); e := Book(a);
    case Left(_) => var a := OpMoves(s.books, i); e := Book(a);
  }

  lemma SomeOutstanding(s: State) returns (i: nat)
    requires Good(s) && s.books.outstanding > 0
    ensures i in s.books.ops && IsOutstanding(s.books.ops[i].stage)
  {
    hide PinsHeld, Stories, Users, Quiet, Wakes, Locks;
    assert Value(s.books, Outstanding) == Count(s.books.ops, Outstanding);
    i :| i in Members(s.books.ops, Outstanding);
  }

  lemma PacketMoves(s: State, i: nat) returns (e: Event)
    requires Quiet(s) && Owned(s) && s.stop.Draining? && s.books.outstanding > 0 && AtStage(s.books, i, Posted)
    ensures Internal(e) && Enabled(s, e)
  {
    var w :| w in s.workers;
    QuietWorker(s, w);
    if s.workers[w].Blocked? {
      e := Work(w, TakeE(i));
    } else {
      assert !s.workers[w].Exited?;
      hide Quiet, Can, CanWork;
      e := WorkerMoves(s, w);
    }
  }

  /** The one way to hang: the workers that are left wait for packets that nobody will post. */
  ghost predicate Stuck(s: State) {
    && s.stop.Joining? && s.wakes == 0 && s.cancellers == map[]
    && (forall w :: w in s.workers ==> s.workers[w].Exited? || s.workers[w] == Blocked(Forever))
    && exists w :: w in s.workers && s.workers[w] == Blocked(Forever)
  }

  lemma AllGone(s: State)
    requires Good(s) && Drained(s.stop)
    ensures forall i :: i in s.books.ops ==> s.books.ops[i].stage.Gone?
  {
    hide PinsHeld, Stories, Users, Wakes;
    var b := s.books;
    assert Value(b, Outstanding) == Count(b.ops, Outstanding);
    assert Members(b.ops, Outstanding) == {};
    forall i | i in b.ops ensures b.ops[i].stage.Gone? {
      assert i !in Members(b.ops, Outstanding);
    }
  }

  lemma CancellerMoves(s: State, i: nat) returns (e: Event)
    requires Good(s) && Known(s) && s.stop.Joining? && i in s.cancellers
    ensures Internal(e) && Enabled(s, e)
  {
    AllGone(s);
    hide Good;
    e := Cancelling(i, if s.cancellers[i] then CancelWakeE(true) else CancelLeaseE);
  }

  lemma JoinMoves(s: State, w: Worker) returns (e: Event)
    requires Good(s) && Owned(s) && Known(s) && s.stop.Joining? && w in s.workers && !s.workers[w].Exited? && !Stuck(s)
    ensures Internal(e) && Enabled(s, e)
  {
    hide Good, Owned, Known;
    if s.wakes == 0 && s.cancellers == map[] && s.workers[w] == Blocked(Forever) {
      var x :| x in s.workers && !s.workers[x].Exited? && s.workers[x] != Blocked(Forever);
      e := AwakeMoves(s, x);
    } else if s.workers[w] != Blocked(Forever) {
      e := AwakeMoves(s, w);
    } else if s.wakes > 0 {
      e := Work(w, WakeE);
    } else {
      var i :| i in s.cancellers;
      e := CancellerMoves(s, i);
    }
  }

  lemma AwakeMoves(s: State, w: Worker) returns (e: Event)
    requires Owned(s) && s.stop.Joining? && w in s.workers && !s.workers[w].Exited? && s.workers[w] != Blocked(Forever)
    ensures Internal(e) && Enabled(s, e)
  {
    hide Owned;
    if s.workers[w].Blocked? {
      e := Work(w, TimeoutE);
    } else {
      hide Enabled;
      e := WorkerMoves(s, w);
    }
  }

  lemma IdleMoves(s: State) returns (e: Event)
    requires Users(s) && Locks(s) && Quiet(s) && s.stop.Idling?
    ensures Internal(e) && Enabled(s, e)
  {
    if s.users == 0 {
      e := Stopping(AdvanceE);
    } else {
      assert s.pinners != {};
      var x :| x in s.pinners;
      assert Uses(s, x);
      assert x.ByCanceller?;
      e := Cancelling(x.i, CancelWakeE(true));
    }
  }

  /** Until Stop is done, some thread of the service can move, in all states but those. */
  lemma NeverStuck(s: State) returns (e: Event)
    requires Good(s) && Owned(s) && Known(s) && !Running(s.stop) && !s.stop.Finished? && !Stuck(s)
    ensures Internal(e) && Enabled(s, e)
  {
    match s.stop
    case Clearing => e := Stopping(ClearE);
    case Waking(k) => e := Stopping(if k < |s.workers| then WakeUpE(true) else AdvanceE);
    case Draining =>
      if s.books.outstanding == 0 {
        e := Stopping(AdvanceE);
      } else {
        NotNegative(s.books);
        hide Good, Owned, Enabled, Internal;
        e := DrainMoves(s);
      }
    case Rewaking(k) => e := Stopping(if k < |s.workers| then WakeUpE(true) else AdvanceE);
    case Joining =>
      if AllExited(s.workers) {
        e := Stopping(AdvanceE);
      } else {
        var w :| w in s.workers && !s.workers[w].Exited?;
        hide Good, Owned, Known, Stuck, Enabled, Internal;
        e := JoinMoves(s, w);
      }
    case Idling =>
      hide Enabled, Internal, Owned;
      e := IdleMoves(s);
  }

  /** Nobody gets at the port after Stop has waited for its users. */
  ghost predicate Shut(s: State) {
    s.stop.Finished? ==> s.pinners == {}
  }

  lemma StepPins(s: State, e: Event)
    requires Locks(s) && Enabled(s, e) && !HasPort(s.stop)
    ensures Step(s, e).pinners <= s.pinners
  {
    hide Do, Can, CanStop, DoStop;
    if e.Stopping? {
      StopPins(s, e.st);
    }
  }

  lemma StopPins(s: State, e: StopEvent)
    requires CanStop(s, e)
    ensures DoStop(s, e).pinners == s.pinners
    ensures DoStop(s, e).stop.Finished? ==> s.users == 0
    ensures !s.stop.Finished?
  {
    hide Do, AllExited;
  }

  lemma StepShut(s: State, e: Event)
    requires Good(s) && Shut(s) && Enabled(s, e)
    ensures Shut(Step(s, e))
  {
    StepPosters(s, e);
    if e.Stopping? {
      StopPins(s, e.st);
    } else if s.stop.Finished? {
      StepPins(s, e);
    }
    hide Do, Can, CanPost, DoPost, CanCancel, DoCancel, CanWork, DoWork, CanStop, DoStop, Quiet, Wakes, IocpBooks.Inv;
  }

  ghost predicate Sound(s: State) {
    Good(s) && Owned(s) && Shut(s) && Known(s)
  }

  lemma StepSound(s: State, e: Event)
    requires Sound(s) && Enabled(s, e)
    ensures Sound(Step(s, e))
  {
    hide Good, Owned, Step, Enabled;
    StepGood(s, e);
    StepOwned(s, e);
    StepShut(s, e);
    StepKnown(s, e);
  }

  lemma InitialSound(s: State)
    requires Initial(s)
    ensures Sound(s)
  {
    InitialGood(s);
  }

  /** A schedule takes a step whenever some thread can take one, and stays where it is otherwise. */
  ghost predicate Schedule(f: nat -> State, ev: nat -> Event) {
    forall m: nat {:trigger ev(m)} :: Moves(f(m), ev(m), f(m + 1))
  }

  ghost predicate Moves(s: State, e: Event, t: State) {
    if CanMove(s) then Enabled(s, e) && t == Step(s, e) else t == s
  }

  ghost predicate CanMove(s: State) {
    exists e :: Enabled(s, e)
  }

  /** Whatever the interleaving, Stop reaches its end and closes the port, if it does not hang in the one way it can. */
  lemma {:induction false} StopFinishes(f: nat -> State, ev: nat -> Event, n: nat) returns (k: nat)
    requires Sound(f(n)) && !Running(f(n).stop) && Schedule(f, ev) && (forall m: nat :: m >= n ==> !Stuck(f(m)))
    ensures k >= n && f(k).stop.Finished?
    decreases OpsLeft(f(n).books), StopLeft(f(n).stop, |f(n).workers|), CancelsLeft(f(n).cancellers), f(n).wakes, WorkLeft(f(n).workers)
  {
    hide Good, Owned, Known, Shut, Stuck, Step, Enabled, OpsLeft, CancelsLeft, WorkLeft;
    if f(n).stop.Finished? {
      return n;
    }
    var s := f(n);
    var e := NeverStuck(s);
    assert CanMove(s) && Moves(f(n), ev(n), f(n + 1));
    EveryStepLess(s, ev(n));
    StepSound(s, ev(n));
    StaysStopped(s, ev(n));
    k := StopFinishes(f, ev, n + 1);
  }

  // ----- And that is exact

  lemma GoneStill(b: Books, a: Act)
    requires Can(b, a) && Plainly(b, a)
    ensures exists i :: i in b.ops && !b.ops[i].stage.Gone?
  {
    hide Free;
    assert a.i in b.ops && !b.ops[a.i].stage.Gone?;
  }

  lemma StuckWorker(s: State, w: Worker, e: WorkEvent)
    requires Stuck(s) && forall i :: i in s.books.ops ==> s.books.ops[i].stage.Gone?
    ensures !CanWork(s, w, e)
  {
  }

  lemma StuckStop(s: State, e: StopEvent)
    requires Stuck(s)
    ensures !CanStop(s, e)
  {
  }

  lemma StuckStays(s: State, e: Event)
    requires Good(s) && Stuck(s)
    ensures !Enabled(s, e)
  {
    AllGone(s);
    hide Good, Stuck, Can, CanPost, CanCancel, CanWork, CanStop, Plainly;
    match e
    case Book(a) =>
      if Plainly(s.books, a) && Can(s.books, a) {
        GoneStill(s.books, a);
      }
    case Post(i, p) =>
      if CanPost(s, i, p) {
        GoodLocks(s);
        PostRuns(s, i, p);
        StuckJoins(s);
      }
    case Cancelling(i, c) => StuckCanceller(s, i, c);
    case Work(w, x) => StuckWorker(s, w, x);
    case Stopping(x) => StuckStop(s, x);
  }

  lemma GoodLocks(s: State)
    requires Good(s)
    ensures Locks(s)
  {
    hide IocpBooks.Inv, Users, Quiet, Wakes, Locks;
  }

  lemma StuckJoins(s: State)
    requires Stuck(s)
    ensures s.stop.Joining? && s.cancellers == map[]
  {
  }

  lemma StuckCanceller(s: State, i: nat, e: CancelEvent)
    requires Stuck(s) && forall i :: i in s.books.ops ==> s.books.ops[i].stage.Gone?
    ensures !CanCancel(s, i, e)
  {
  }

  /** Once Stop has begun and until it is done, nothing can move exactly in those states. */
  lemma StuckExactly(s: State)
    requires Sound(s) && !Running(s.stop) && !s.stop.Finished?
    ensures !CanMove(s) <==> Stuck(s)
  {
    hide Good, Owned, Known, Stuck, Enabled;
    if Stuck(s) {
      forall e ensures !Enabled(s, e) {
        StuckStays(s, e);
      }
    } else {
      var e := NeverStuck(s);
    }
  }

  /** It takes a refused wake-up of the second batch to get there. */
  lemma StuckWasRefused(s: State)
    requires Sound(s) && Stuck(s)
    ensures s.lost > 0
  {
    hide IocpBooks.Inv, Users, Locks, Quiet, Owned, Known;
    var w :| w in s.workers && s.workers[w] == Blocked(Forever);
    assert w in Unsettled(s.workers);
  }

  lemma {:induction false} ScheduleSound(f: nat -> State, ev: nat -> Event, n: nat, m: nat)
    requires Schedule(f, ev) && Sound(f(n)) && !Running(f(n).stop) && n <= m
    ensures Sound(f(m)) && !Running(f(m).stop)
    ensures f(n).stop.Finished? ==> f(m).stop.Finished?
    ensures Stuck(f(n)) ==> f(m) == f(n)
    decreases m
  {
    hide Sound, Stuck, Step, Enabled;
    if n < m {
      ScheduleSound(f, ev, n, m - 1);
      var s, e := f(m - 1), ev(m - 1);
      assert Moves(f(m - 1), ev(m - 1), f(m - 1 + 1));
      if CanMove(s) {
        StepSound(s, e);
        StaysStopped(s, e);
        StaysFinished(s, e);
        if Stuck(s) {
          SoundStuck(s, e);
        }
      }
    }
  }

  lemma SoundStuck(s: State, e: Event)
    requires Sound(s) && Stuck(s)
    ensures !Enabled(s, e)
  {
    hide Good, Owned, Known, Shut, Stuck, Enabled;
    StuckStays(s, e);
  }

  lemma StaysFinished(s: State, e: Event)
    requires Enabled(s, e)
    ensures s.stop.Finished? ==> Step(s, e).stop.Finished?
  {
    StepPosters(s, e);
    if e.Stopping? {
      StopPins(s, e.st);
    }
    hide Do, Can, CanPost, DoPost, CanCancel, DoCancel, CanWork, DoWork, CanStop, DoStop;
  }

  /** In every schedule: Stop comes to its end if and only if it never gets into such a state. */
  lemma StopFinishesExactly(f: nat -> State, ev: nat -> Event, n: nat)
    requires Sound(f(n)) && !Running(f(n).stop) && Schedule(f, ev)
    ensures (exists k: nat :: k >= n && f(k).stop.Finished?) <==> (forall m: nat :: m >= n ==> !Stuck(f(m)))
  {
    hide Sound, Stuck, Schedule;
    if forall m: nat :: m >= n ==> !Stuck(f(m)) {
      var k := StopFinishes(f, ev, n);
    } else {
      var m: nat :| m >= n && Stuck(f(m));
      forall k: nat | k >= n ensures !f(k).stop.Finished? {
        ScheduleSound(f, ev, n, m);
        ScheduleSound(f, ev, n, k);
        StuckJoins(f(m));
        if k >= m {
          ScheduleSound(f, ev, m, k);
        } else {
          ScheduleSound(f, ev, k, m);
        }
      }
    }
  }

  lemma StaysStopped(s: State, e: Event)
    requires Enabled(s, e) && !Running(s.stop)
    ensures !Running(Step(s, e).stop) && |Step(s, e).workers| == |s.workers|
  {
    StepPosters(s, e);
    StaysWorkers(s, e);
    hide Do, Can, CanPost, DoPost, CanCancel, DoCancel, CanWork, DoWork;
  }

  lemma StaysWorkers(s: State, e: Event)
    requires Enabled(s, e)
    ensures |Step(s, e).workers| == |s.workers|
  {
    if e.Work? {
      WorkersSame(s, e.w, e.e);
    } else if e.Post? {
      PostWorkers(s, e.i, e.p);
    } else if e.Cancelling? {
      CancelWorkers(s, e.i, e.c);
    }
    hide Do, Can, CanPost, DoPost, CanCancel, DoCancel, CanWork, DoWork;
  }

  lemma WorkersSame(s: State, w: Worker, e: WorkEvent)
    requires CanWork(s, w, e)
    ensures |DoWork(s, w, e).workers| == |s.workers|
  {
    hide Do, Can, Look, CanLook, NoneClaimed;
    var t := DoWork(s, w, e);
    if e.LookE? {
      LookFrame(s, w, s.workers[w]);
    }
    assert t.workers.Keys == s.workers.Keys;
  }

  // ----- What it means

  /** The port is closed only when no thread holds it, posts through it or can ever use it again. */
  lemma ClosedUnused(s: State)
    requires Sound(s) && s.stop.Finished?
    ensures s.pinners == {} && s.users == 0 && s.posters == map[] && AllExited(s.workers) && s.books.outstanding == 0
  {
    hide IocpBooks.Inv, Wakes, Owned;
  }
}
