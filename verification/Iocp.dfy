/**
 The completion port service from its start to the end of its shutdown: threads that post,
 schedule and cancel, workers that sweep timers and dispatch completions, and the one thread
 that stops the service. Each step is one atomic access, one region under a mutex, or one
 call of the kernel, whose outcome the environment picks.
 */
module Iocp {
  import opened Bytes
  import opened IocpBooks

  /** A thread inside a post, holding the lifecycle lock shared; `ok` is what the port answered. */
  datatype Poster = Plain | Pinning | Unpinning(ok: bool) | Told(ok: bool)

  /**
   How long a worker waits for a packet: as long as no timer of the table it left behind is due, with
   those timers remembered; forever, if it left none; or not at all, after a finished shutdown.
   */
  datatype Wait = Forever | Timed(seen: set<nat>) | Done

  type Nap = t: Wait | !t.Done? witness Forever

  datatype Pc =
    | Top                       // about to look at the running flag
    | Sweep                     // it was set: about to sweep the timers
    | Swept(n: Nap)             // about to look at it again
    | Dropping(n: Nap)          // it was not: discarding what was claimed
    | Leasing(n: Nap)           // about to lease the port for what was claimed
    | Posting(n: Nap)           // posting what was claimed
    | Asking                    // shutting down: about to look at the outstanding count
    | Waiting(t: Wait)          // about to lease the port
    | Blocked(t: Wait)          // waiting for a packet
    | GotOp(i: nat)             // has a completion, and still the lease
    | GotNothing(t: Wait)       // has a wake-up or a timeout, and still the lease
    | Handling(i: nat)          // dispatching and releasing a completion
    | Woken(t: Wait)            // about to look at the running flag
    | Checking(t: Wait)         // it was clear: about to look at the outstanding count
    | Exited

  /** How far the thread in Stop has come. */
  datatype StopPc =
    | Off                       // not called
    | Clearing                  // running is cleared, the lifecycle lock is held exclusively
    | Waking(k: nat)            // timers cleared, sockets cancelled, k of the first wake-ups posted
    | Draining                  // lock released, waiting for the outstanding count
    | Rewaking(k: nat)          // k of the second wake-ups posted
    | Joining
    | Idling                    // the handle is taken from the service, waiting for its users
    | Finished                  // and closed

  datatype Token = ByPoster(i: nat) | ByWorker(w: Worker) | ByCanceller(i: nat)

  /**
   `users` is the service's count of port users and `pinners` who they are. `cancellers` are the
   threads in CancelTimeout that found a pending timer, true while they lease the port. `wakes`
   are the empty packets in the port; `lost` counts second wake-ups that could not be posted.
   */
  datatype State = State(
    books: Books, posters: map<nat, Poster>, cancellers: map<nat, bool>, workers: map<Worker, Pc>, stop: StopPc,
    users: int, pinners: set<Token>, wakes: nat, lost: nat, fault: bool)

  predicate Running(stop: StopPc) {
    stop.Off?
  }

  predicate Locked(stop: StopPc) {
    stop.Clearing? || stop.Waking?
  }

  predicate HasPort(stop: StopPc) {
    !stop.Idling? && !stop.Finished?
  }

  ghost predicate Initial(s: State) {
    && s.books == EMPTY && s.posters == map[] && s.cancellers == map[] && s.workers != map[]
    && (forall w :: w in s.workers ==> s.workers[w] == Top)
    && s.stop.Off? && s.users == 0 && s.pinners == {} && s.wakes == 0 && s.lost == 0 && !s.fault
  }

  // ----- The port's users

  function Pin(s: State, who: Token): (t: State)
    ensures t == s.(users := t.users, pinners := t.pinners)
  {
    s.(users := s.users + 1, pinners := s.pinners + {who})
  }

  /** The compare-and-swap loop reports an underflow instead of causing one. */
  function Unpin(s: State, who: Token): (t: State)
    ensures t == s.(users := t.users, pinners := t.pinners, fault := t.fault)
  {
    if s.users > 0 then s.(users := s.users - 1, pinners := s.pinners - {who})
    else s.(fault := true, pinners := s.pinners - {who})
  }

  // ----- Threads that post

  /** A thread in a post returns only after these. */
  predicate Busy(stage: Stage) {
    stage.Begun? || stage.Registered? || stage.Pinned? || stage.Added? || stage.Publishing?
  }

  predicate MidPost(o: Op) {
    Busy(o.stage) || o.stage.Failing? || (FateOf(o.stage) == Some(Failed) && !o.stage.Gone?)
  }

  /** What a post, a release or a dispatch does to the books alone. */
  predicate Plainly(b: Books, a: Act) {
    match a
    case KernelA(i, _) => i in b.ops && b.ops[i].socket.Some?
    case _ => a.AddSocketA? || a.AddPendingA? || a.AddOutstandingA? || a.InsertA? || a.UnregisterA? || a.DispatchA?
              || a.ReleasePendingA? || a.ReleaseOutstandingA?
  }

  datatype PostEvent =
    | BeginE(ctx: Context, handle: Handle, socket: Option<Socket>, timer: bool)
    | PinE | TellE(ok: bool) | UnpinE | PublishE | ReturnE

  predicate CanPost(s: State, i: nat, e: PostEvent) {
    match e
    case BeginE(ctx, handle, socket, timer) =>
      Running(s.stop) && i !in s.posters && Can(s.books, BeginA(i, ctx, handle, socket, timer))
    case PinE =>
      && i in s.posters && s.posters[i].Plain? && i in s.books.ops
      && (s.books.ops[i].stage.Publishing? || (s.books.ops[i].stage.Added? && !s.books.ops[i].timer && s.books.ops[i].socket.None?))
    case TellE(_) => i in s.posters && s.posters[i].Pinning? && i in s.books.ops && (s.books.ops[i].stage.Publishing? || Can(s.books, KernelA(i, true)))
    case UnpinE => i in s.posters && s.posters[i].Unpinning?
    case PublishE => i in s.posters && s.posters[i].Told? && Can(s.books, PublishA(i, true))
    case ReturnE => i in s.posters && !s.posters[i].Pinning? && !s.posters[i].Unpinning? && i in s.books.ops && !MidPost(s.books.ops[i])
  }

  /** A post to the port carries a user operation, or wakes a worker for a new timer. */
  function Tell(s: State, i: nat, ok: bool): State
    requires CanPost(s, i, TellE(ok))
  {
    var t := s.(posters := s.posters[i := Unpinning(ok)]);
    if s.books.ops[i].stage.Publishing? then t.(wakes := s.wakes + if ok then 1 else 0)
    else t.(books := Do(s.books, KernelA(i, ok)))
  }

  function DoPost(s: State, i: nat, e: PostEvent): State
    requires CanPost(s, i, e)
  {
    match e
    case BeginE(ctx, handle, socket, timer) =>
      s.(books := Do(s.books, BeginA(i, ctx, handle, socket, timer)), posters := s.posters[i := Plain])
    case PinE => Pin(s.(posters := s.posters[i := Pinning]), ByPoster(i))
    case TellE(ok) => Tell(s, i, ok)
    case UnpinE => Unpin(s.(posters := s.posters[i := Told(s.posters[i].ok)]), ByPoster(i))
    case PublishE => s.(books := Do(s.books, PublishA(i, s.posters[i].ok)), posters := s.posters[i := Plain])
    case ReturnE => s.(posters := s.posters - {i})
  }

  // ----- Threads that cancel

  datatype CancelEvent = CancelE | CancelLeaseE | CancelWakeE(ok: bool)

  predicate CanCancel(s: State, i: nat, e: CancelEvent) {
    match e
    case CancelE => Can(s.books, CancelA(i)) && i !in s.cancellers
    case CancelLeaseE => i in s.cancellers && !s.cancellers[i] && !Locked(s.stop) && i in s.books.ops && s.books.ops[i].stage.Gone?
    case CancelWakeE(_) => i in s.cancellers && s.cancellers[i]
  }

  function DoCancel(s: State, i: nat, e: CancelEvent): State
    requires CanCancel(s, i, e)
  {
    match e
    case CancelE => s.(books := Do(s.books, CancelA(i)), cancellers := s.cancellers[i := false])
    case CancelLeaseE =>
      if HasPort(s.stop) then Pin(s.(cancellers := s.cancellers[i := true]), ByCanceller(i))
      else s.(cancellers := s.cancellers - {i})
    case CancelWakeE(ok) =>
      Unpin(s.(cancellers := s.cancellers - {i}, wakes := s.wakes + if ok then 1 else 0), ByCanceller(i))
  }

  // ----- Workers

  datatype WorkEvent =
    | LookE                             // the step its place prescribes
    | SweepE(due: set<nat>)             // the timers that are due, chosen by the clock
    | ClaimedE(i: nat, ok: bool)        // one claimed timer is posted or discarded
    | NextE                             // all are
    | TakeE(i: nat) | WakeE | TimeoutE  // what the wait for a packet gives

  /** The timers of the table. */
  function Table(b: Books): set<nat> {
    set i | i in b.ops && (b.ops[i].stage.Publishing? || b.ops[i].stage.Armed?)
  }

  function NapOver(left: set<nat>): Nap {
    if left == {} then Forever else Timed(left)
  }

  function At(s: State, w: Worker, pc: Pc): State {
    s.(workers := s.workers[w := pc])
  }

  predicate NoneClaimed(b: Books, w: Worker) {
    forall i :: i in b.ops ==> b.ops[i].stage != Claimed(w)
  }

  /** A worker that leases the port waits while the lock is held. */
  predicate CanLook(s: State, pc: Pc) {
    match pc
    case Leasing(_) => !Locked(s.stop)
    case Waiting(_) => !Locked(s.stop)
    case Handling(i) => i in s.books.ops && s.books.ops[i].stage.Gone?
    case _ => !pc.Sweep? && !pc.Dropping? && !pc.Posting? && !pc.Blocked? && !pc.Exited?
  }

  function Look(s: State, w: Worker, pc: Pc): State
    requires CanLook(s, pc)
  {
    match pc
    case Top => At(s, w, if Running(s.stop) then Sweep else Asking)
    case Swept(n) => At(s, w, if Running(s.stop) then Leasing(n) else Dropping(Timed({})))
    case Leasing(n) => if HasPort(s.stop) then Pin(At(s, w, Posting(n)), ByWorker(w)) else At(s, w, Dropping(n))
    case Asking => At(s, w, Waiting(if s.books.outstanding == 0 then Done else Forever))
    case Waiting(t) => if HasPort(s.stop) then Pin(At(s, w, Blocked(t)), ByWorker(w)) else At(s, w, Exited)
    case GotOp(i) => Unpin(At(s, w, Handling(i)), ByWorker(w))
    case GotNothing(t) => Unpin(At(s, w, Woken(t)), ByWorker(w))
    case Handling(_) => At(s, w, Top)
    case Woken(t) => At(s, w, if Running(s.stop) then Top else Checking(t))
    case Checking(_) => At(s, w, if s.books.outstanding == 0 then Exited else Top)
  }

  predicate CanWork(s: State, w: Worker, e: WorkEvent) {
    && w in s.workers
    && var pc := s.workers[w];
       match e
       case LookE => CanLook(s, pc)
       case SweepE(due) => pc.Sweep? && Can(s.books, ClaimA(due, w))
       case ClaimedE(i, ok) => (pc.Posting? || (pc.Dropping? && !ok)) && i in s.books.ops && s.books.ops[i].stage == Claimed(w)
       case NextE => (pc.Posting? || pc.Dropping?) && NoneClaimed(s.books, w)
       case TakeE(i) => pc.Blocked? && Can(s.books, TakeA(i))
       case WakeE => pc.Blocked? && s.wakes > 0
       case TimeoutE => pc.Blocked? && !pc.t.Forever?
  }

  function DoWork(s: State, w: Worker, e: WorkEvent): State
    requires CanWork(s, w, e)
  {
    var pc := s.workers[w];
    match e
    case LookE => Look(s, w, pc)
    case SweepE(due) => var b := Do(s.books, ClaimA(due, w)); At(s.(books := b), w, Swept(NapOver(Table(b))))
    case ClaimedE(i, ok) => s.(books := Do(s.books, PostClaimA(i, ok)))
    case NextE => if pc.Posting? then Unpin(At(s, w, Waiting(pc.n)), ByWorker(w)) else At(s, w, Waiting(pc.n))
    case TakeE(i) => At(s.(books := Do(s.books, TakeA(i))), w, GotOp(i))
    case WakeE => At(s.(wakes := s.wakes - 1), w, GotNothing(pc.t))
    case TimeoutE => At(s, w, GotNothing(pc.t))
  }

  // ----- The thread in Stop

  datatype StopEvent = StopE | ClearE | WakeUpE(ok: bool) | AdvanceE

  predicate AllExited(workers: map<Worker, Pc>) {
    forall w :: w in workers ==> workers[w].Exited?
  }

  predicate CanStop(s: State, e: StopEvent) {
    match e
    case StopE => s.stop.Off? && s.posters == map[]
    case ClearE => s.stop.Clearing?
    case WakeUpE(_) => (s.stop.Waking? || s.stop.Rewaking?) && s.stop.k < |s.workers|
    case AdvanceE =>
      match s.stop
      case Waking(k) => k >= |s.workers|
      case Draining => s.books.outstanding == 0
      case Rewaking(k) => k >= |s.workers|
      case Joining => AllExited(s.workers) && s.posters == map[]
      case Idling => s.users == 0
      case _ => false
  }

  function WakeUp(s: State, ok: bool): State
    requires s.stop.Waking? || s.stop.Rewaking?
  {
    var t := s.(wakes := s.wakes + if ok then 1 else 0);
    if s.stop.Waking? then t.(stop := Waking(s.stop.k + 1))
    else t.(stop := Rewaking(s.stop.k + 1), lost := s.lost + if ok then 0 else 1)
  }

  function DoStop(s: State, e: StopEvent): State
    requires CanStop(s, e)
  {
    match e
    case StopE => s.(stop := Clearing)
    case ClearE => s.(books := Do(s.books, ClearA), stop := Waking(0))
    case WakeUpE(ok) => WakeUp(s, ok)
    case AdvanceE =>
      match s.stop
      case Waking(_) => s.(stop := Draining)
      case Draining => s.(stop := Rewaking(0))
      case Rewaking(_) => s.(stop := Joining)
      case Joining => s.(stop := Idling)
      case Idling => s.(stop := Finished)
  }

  // ----- All of them

  datatype Event =
    | Book(a: Act)
    | Post(i: nat, p: PostEvent)
    | Cancelling(i: nat, c: CancelEvent)
    | Work(w: Worker, e: WorkEvent)
    | Stopping(st: StopEvent)

  predicate Enabled(s: State, e: Event) {
    match e
    case Book(a) => Plainly(s.books, a) && Can(s.books, a)
    case Post(i, p) => CanPost(s, i, p)
    case Cancelling(i, c) => CanCancel(s, i, c)
    case Work(w, x) => CanWork(s, w, x)
    case Stopping(x) => CanStop(s, x)
  }

  function Step(s: State, e: Event): State
    requires Enabled(s, e)
  {
    match e
    case Book(a) => s.(books := Do(s.books, a))
    case Post(i, p) => DoPost(s, i, p)
    case Cancelling(i, c) => DoCancel(s, i, c)
    case Work(w, x) => DoWork(s, w, x)
    case Stopping(x) => DoStop(s, x)
  }
}
