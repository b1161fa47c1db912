/**
 The bookkeeping of the completion port service: one operation moves one unit of outstanding
 work from its post, through the kernel or the timer table, to its release. Every atomic
 access to a counter, a table or a context is one action, and any thread may act in between.
 */
module IocpBooks {
  import opened Bytes

  type Context = nat
  type Handle = nat
  type Socket = nat
  type Worker = nat

  datatype Fate = Delivered | Failed | Cancelled | Cleared | Discarded

  /** Where an operation is; the comments name what has just been done. */
  datatype Stage =
    | Begun                 // the checks, under the shared lifecycle lock
    | Registered            // its socket is counted
    | Pinned                // its context is pinned and its handle's pending count raised
    | Added                 // the outstanding count is raised
    | Posted                // given to the kernel or queued at the port
    | Publishing            // in the timer table, not yet visible to workers
    | Armed                 // in the timer table
    | Claimed(w: Worker)    // taken out of the table by a worker
    | Taken                 // dequeued, its pins moved to the worker
    | Unregistered          // its socket is no longer counted; the handler runs
    | Failing               // the kernel refused it
    | Leaving(fate: Fate)   // the release has begun
    | Left(fate: Fate)      // the handle's pending count is lowered
    | Gone(fate: Fate)      // the outstanding count is lowered

  /** `calls` and `releases` count handler calls and releases; `armed` and `cancelled` remember. */
  datatype Op = Op(ctx: Context, handle: Handle, socket: Option<Socket>, timer: bool, stage: Stage,
                   armed: bool, cancelled: bool, calls: nat, releases: nat)

  /** `fault` is set by the branches that report broken accounting. */
  datatype Books = Books(ops: map<nat, Op>, outstanding: int, pending: multiset<Handle>, sockets: multiset<Socket>,
                         pins: map<Context, Handle>, fault: bool)

  const EMPTY := Books(map[], 0, multiset{}, multiset{}, map[], false)

  // ----- Actions

  function Put(b: Books, i: nat, o: Op): Books {
    b.(ops := b.ops[i := o])
  }

  function Move(b: Books, i: nat, stage: Stage): Books
    requires i in b.ops
  {
    Put(b, i, b.ops[i].(stage := stage))
  }

  function Begin(b: Books, i: nat, ctx: Context, handle: Handle, socket: Option<Socket>, timer: bool): Books {
    Put(b, i, Op(ctx, handle, socket, timer, Begun, false, false, 0, 0))
  }

  function AddSocket(b: Books, i: nat): Books
    requires i in b.ops
  {
    var x := b.ops[i].socket;
    var t := Move(b, i, Registered);
    if x.None? then t else t.(sockets := b.sockets + multiset{x.value})
  }

  function AddPending(b: Books, i: nat): Books
    requires i in b.ops
  {
    var o := b.ops[i];
    Move(b, i, Pinned).(pins := b.pins[o.ctx := o.handle], pending := b.pending + multiset{o.handle})
  }

  function AddOutstanding(b: Books, i: nat): Books
    requires i in b.ops
  {
    Move(b, i, Added).(outstanding := b.outstanding + 1)
  }

  /** A missing entry is reported and otherwise ignored. */
  function UnregisterSocket(b: Books, x: Option<Socket>): (r: Books)
    ensures r == b.(sockets := r.sockets, fault := r.fault)
  {
    if x.None? then b
    else if x.value in b.sockets then b.(sockets := b.sockets - multiset{x.value})
    else b.(fault := true)
  }

  function Unregister(b: Books, i: nat): (r: Books)
    requires i in b.ops
    ensures r == Move(b, i, if b.ops[i].stage.Failing? then Leaving(Failed) else Unregistered).(sockets := r.sockets, fault := r.fault)
  {
    var o := b.ops[i];
    UnregisterSocket(Move(b, i, if o.stage.Failing? then Leaving(Failed) else Unregistered), o.socket)
  }

  function Publish(b: Books, i: nat, ok: bool): Books
    requires i in b.ops
  {
    if ok then Put(b, i, b.ops[i].(stage := Armed, armed := true)) else Move(b, i, Leaving(Failed))
  }

  function Cancel(b: Books, i: nat): Books
    requires i in b.ops
  {
    Put(b, i, b.ops[i].(stage := Leaving(Cancelled), cancelled := true))
  }

  /** One sweep of the timer table: a worker claims the timers that are due. */
  function Claim(b: Books, due: set<nat>, w: Worker): Books {
    b.(ops := map i | i in b.ops :: if i in due then b.ops[i].(stage := Claimed(w)) else b.ops[i])
  }

  function ClearTimers(b: Books): Books {
    b.(ops := map i | i in b.ops ::
                if b.ops[i].stage.Armed? || b.ops[i].stage.Publishing? then b.ops[i].(stage := Leaving(Cleared)) else b.ops[i])
  }

  /** A worker dequeues a completion; without a pin it reports that and only lowers the outstanding count. */
  function Take(b: Books, i: nat): Books
    requires i in b.ops
  {
    var o := b.ops[i];
    if o.ctx in b.pins then
      Put(b, i, o.(stage := Taken, handle := b.pins[o.ctx])).(pins := b.pins - {o.ctx})
    else Move(b, i, Left(Discarded)).(fault := true)
  }

  function Dispatch(b: Books, i: nat): Books
    requires i in b.ops
  {
    Put(b, i, b.ops[i].(stage := Leaving(Delivered), calls := b.ops[i].calls + 1))
  }

  /** The compare-and-swap loops never take a counter below zero; they report instead. */
  function ReleasePending(b: Books, i: nat): (r: Books)
    requires i in b.ops && b.ops[i].stage.Leaving?
    ensures r == Move(b, i, Left(b.ops[i].stage.fate)).(pending := r.pending, fault := r.fault)
  {
    var o := b.ops[i];
    var t := Move(b, i, Left(o.stage.fate));
    if o.handle in b.pending then t.(pending := b.pending - multiset{o.handle}) else t.(fault := true)
  }

  /** The last step also drops what pins the context still holds. */
  function ReleaseOutstanding(b: Books, i: nat): Books
    requires i in b.ops && b.ops[i].stage.Left?
  {
    var o := b.ops[i];
    var t := Put(b, i, o.(stage := Gone(o.stage.fate), releases := o.releases + 1));
    var u := if o.stage.fate.Delivered? then t else t.(pins := b.pins - {o.ctx});
    if b.outstanding > 0 then u.(outstanding := b.outstanding - 1) else u.(fault := true)
  }

  datatype Act =
    | BeginA(i: nat, ctx: Context, handle: Handle, socket: Option<Socket>, timer: bool)
    | AddSocketA(i: nat) | AddPendingA(i: nat) | AddOutstandingA(i: nat)
    | KernelA(i: nat, ok: bool) | InsertA(i: nat) | PublishA(i: nat, ok: bool)
    | CancelA(i: nat) | ClaimA(due: set<nat>, w: Worker) | ClearA | PostClaimA(i: nat, ok: bool)
    | TakeA(i: nat) | UnregisterA(i: nat) | DispatchA(i: nat)
    | ReleasePendingA(i: nat) | ReleaseOutstandingA(i: nat)

  predicate AtStage(b: Books, i: nat, stage: Stage) {
    i in b.ops && b.ops[i].stage == stage
  }

  /** Contexts no other thread is in the middle of posting; unpinned ones are free. */
  predicate Free(b: Books, ctx: Context) {
    ctx !in b.pins && forall j :: j in b.ops && (b.ops[j].stage.Begun? || b.ops[j].stage.Registered?) ==> b.ops[j].ctx != ctx
  }

  predicate Can(b: Books, a: Act) {
    match a
    case BeginA(i, ctx, _, socket, timer) => i !in b.ops && Free(b, ctx) && (timer ==> socket.None?)
    case AddSocketA(i) => AtStage(b, i, Begun)
    case AddPendingA(i) => AtStage(b, i, Registered)
    case AddOutstandingA(i) => AtStage(b, i, Pinned)
    case KernelA(i, _) => AtStage(b, i, Added) && !b.ops[i].timer
    case InsertA(i) => AtStage(b, i, Added) && b.ops[i].timer
    case PublishA(i, _) => AtStage(b, i, Publishing)
    case CancelA(i) => AtStage(b, i, Armed)
    case ClaimA(due, _) => forall i :: i in due ==> AtStage(b, i, Armed)
    case ClearA => true
    case PostClaimA(i, _) => i in b.ops && b.ops[i].stage.Claimed?
    case TakeA(i) => AtStage(b, i, Posted)
    case UnregisterA(i) => AtStage(b, i, Taken) || AtStage(b, i, Failing)
    case DispatchA(i) => AtStage(b, i, Unregistered)
    case ReleasePendingA(i) => i in b.ops && b.ops[i].stage.Leaving?
    case ReleaseOutstandingA(i) => i in b.ops && b.ops[i].stage.Left?
  }

  function Do(b: Books, a: Act): Books
    requires Can(b, a)
  {
    match a
    case BeginA(i, ctx, handle, socket, timer) => Begin(b, i, ctx, handle, socket, timer)
    case AddSocketA(i) => AddSocket(b, i)
    case AddPendingA(i) => AddPending(b, i)
    case AddOutstandingA(i) => AddOutstanding(b, i)
    case KernelA(i, ok) => Move(b, i, if ok then Posted else Failing)
    case InsertA(i) => Move(b, i, Publishing)
    case PublishA(i, ok) => Publish(b, i, ok)
    case CancelA(i) => Cancel(b, i)
    case ClaimA(due, w) => Claim(b, due, w)
    case ClearA => ClearTimers(b)
    case PostClaimA(i, ok) => Move(b, i, if ok then Posted else Leaving(Discarded))
    case TakeA(i) => Take(b, i)
    case UnregisterA(i) => Unregister(b, i)
    case DispatchA(i) => Dispatch(b, i)
    case ReleasePendingA(i) => ReleasePending(b, i)
    case ReleaseOutstandingA(i) => ReleaseOutstanding(b, i)
  }

  // ----- What the counters count

  datatype Key = Outstanding | PendingOf(h: Handle) | AllPending | SocketOf(x: Socket)

  predicate IsOutstanding(stage: Stage) {
    !(stage.Begun? || stage.Registered? || stage.Pinned? || stage.Gone?)
  }

  predicate IsPending(stage: Stage) {
    !(stage.Begun? || stage.Registered? || stage.Left? || stage.Gone?)
  }

  predicate OnSocket(stage: Stage) {
    !(stage.Begun? || stage.Unregistered? || stage.Leaving? || stage.Left? || stage.Gone?)
  }

  predicate Counted(k: Key, o: Op) {
    match k
    case Outstanding => IsOutstanding(o.stage)
    case PendingOf(h) => o.handle == h && IsPending(o.stage)
    case AllPending => IsPending(o.stage)
    case SocketOf(x) => o.socket == Some(x) && OnSocket(o.stage)
  }

  ghost function Members(ops: map<nat, Op>, k: Key): set<nat> {
    set i | i in ops && Counted(k, ops[i])
  }

  ghost function Count(ops: map<nat, Op>, k: Key): nat {
    |Members(ops, k)|
  }

  function Value(b: Books, k: Key): int {
    match k
    case Outstanding => b.outstanding
    case PendingOf(h) => b.pending[h]
    case AllPending => |b.pending|
    case SocketOf(x) => b.sockets[x]
  }

  function One(yes: bool): int {
    if yes then 1 else 0
  }

  lemma CountPut(ops: map<nat, Op>, i: nat, o: Op, k: Key)
    ensures Count(ops[i := o], k) == Count(ops, k) + One(Counted(k, o)) - One(i in ops && Counted(k, ops[i]))
  {
    hide Counted, Members;
    MembersPut(ops, i, o, k);
  }

  lemma MembersPut(ops: map<nat, Op>, i: nat, o: Op, k: Key)
    ensures Members(ops[i := o], k) == (Members(ops, k) - {i}) + (if Counted(k, o) then {i} else {})
    ensures i in Members(ops, k) <==> i in ops && Counted(k, ops[i])
  {
    hide Counted;
  }

  lemma CountSame(ops: map<nat, Op>, more: map<nat, Op>, k: Key)
    requires more.Keys == ops.Keys && forall i :: i in ops ==> Counted(k, ops[i]) == Counted(k, more[i])
    ensures Count(ops, k) == Count(more, k)
  {
    hide Counted;
    assert Members(ops, k) == Members(more, k);
  }

  lemma CountPositive(ops: map<nat, Op>, i: nat, k: Key)
    requires i in ops && Counted(k, ops[i])
    ensures Count(ops, k) > 0
  {
    hide Counted;
    assert i in Members(ops, k);
  }

  // ----- What every action keeps

  /** Every counter is the number of operations at the stages it stands for. */
  ghost predicate Balanced(b: Books) {
    forall k :: Value(b, k) == Count(b.ops, k)
  }

  /** The operation owns its context. */
  predicate Holds(stage: Stage) {
    match stage
    case Taken => false
    case Unregistered => false
    case Leaving(f) => !f.Delivered?
    case Left(f) => !f.Delivered?
    case Gone(_) => false
    case _ => true
  }

  predicate HoldsPin(stage: Stage) {
    Holds(stage) && !stage.Begun? && !stage.Registered?
  }

  ghost predicate PinsHeld(b: Books) {
    && (forall i :: i in b.ops && HoldsPin(b.ops[i].stage) ==> b.ops[i].ctx in b.pins && b.pins[b.ops[i].ctx] == b.ops[i].handle)
    && (forall i, j :: i in b.ops && j in b.ops && i != j && Holds(b.ops[i].stage) && Holds(b.ops[j].stage) ==> b.ops[i].ctx != b.ops[j].ctx)
  }

  predicate InTable(stage: Stage) {
    stage.Publishing? || stage.Armed? || stage.Claimed?
  }

  predicate TimerFate(f: Fate) {
    f.Cancelled? || f.Cleared? || f.Discarded?
  }

  function FateOf(stage: Stage): Option<Fate> {
    match stage
    case Leaving(f) => Some(f)
    case Left(f) => Some(f)
    case Gone(f) => Some(f)
    case _ => None
  }

  /** One operation's story: one handler call exactly when delivered, one release exactly when gone. */
  predicate Single(o: Op) {
    && o.calls == (if FateOf(o.stage) == Some(Delivered) then 1 else 0)
    && o.releases == (if o.stage.Gone? then 1 else 0)
    && (o.timer ==> o.socket.None? && !o.stage.Failing?)
    && (InTable(o.stage) ==> o.timer)
    && (o.timer ==> (o.armed <==> o.stage.Armed? || o.stage.Claimed? || o.stage.Posted? || o.stage.Taken? || o.stage.Unregistered?
                                  || (FateOf(o.stage).Some? && !FateOf(o.stage).value.Failed?)))
    && (o.cancelled <==> FateOf(o.stage) == Some(Cancelled))
    && (!o.timer ==> !(FateOf(o.stage).Some? && TimerFate(FateOf(o.stage).value)))
  }

  ghost predicate Stories(b: Books) {
    forall i :: i in b.ops ==> Single(b.ops[i])
  }

  ghost predicate Inv(b: Books) {
    Balanced(b) && PinsHeld(b) && Stories(b) && !b.fault
  }

  // ----- The counters balance

  /** How an action on one operation must change a counter. */
  ghost predicate Shifts(b: Books, t: Books, i: nat, o: Op) {
    && t.ops == b.ops[i := o]
    && forall k :: Value(t, k) == Value(b, k) + One(Counted(k, o)) - One(i in b.ops && Counted(k, b.ops[i]))
  }

  lemma ShiftBalanced(b: Books, t: Books, i: nat, o: Op)
    requires Balanced(b) && Shifts(b, t, i, o)
    ensures Balanced(t)
  {
    hide Counted, Value, Count;
    forall k ensures Value(t, k) == Count(t.ops, k) {
      CountPut(b.ops, i, o, k);
      assert Value(b, k) == Count(b.ops, k);
    }
  }

  /** A counter that stands for an operation is not zero when that operation lowers it. */
  lemma Positive(b: Books, i: nat, k: Key)
    requires Balanced(b) && i in b.ops && Counted(k, b.ops[i])
    ensures Value(b, k) > 0
  {
    hide Counted, Value;
    CountPositive(b.ops, i, k);
    assert Value(b, k) == Count(b.ops, k);
  }

  lemma AddBalanced(b: Books, i: nat)
    requires Balanced(b) && i in b.ops
    ensures b.ops[i].stage.Begun? ==> Balanced(AddSocket(b, i))
    ensures b.ops[i].stage.Registered? ==> Balanced(AddPending(b, i))
    ensures b.ops[i].stage.Pinned? ==> Balanced(AddOutstanding(b, i))
    ensures AddSocket(b, i).fault == AddPending(b, i).fault == AddOutstanding(b, i).fault == b.fault
  {
    hide Balanced;
    var o := b.ops[i];
    if o.stage.Begun? {
      ShiftBalanced(b, AddSocket(b, i), i, o.(stage := Registered));
    } else if o.stage.Registered? {
      ShiftBalanced(b, AddPending(b, i), i, o.(stage := Pinned));
    } else if o.stage.Pinned? {
      ShiftBalanced(b, AddOutstanding(b, i), i, o.(stage := Added));
    }
  }

  lemma UnregisterBalanced(b: Books, i: nat)
    requires Balanced(b) && i in b.ops && (b.ops[i].stage.Taken? || b.ops[i].stage.Failing?)
    ensures Balanced(Unregister(b, i)) && Unregister(b, i).fault == b.fault
  {
    hide Balanced, Shifts, Unregister;
    if b.ops[i].socket.Some? {
      Positive(b, i, SocketOf(b.ops[i].socket.value));
    }
    UnregisterShifts(b, i);
    ShiftBalanced(b, Unregister(b, i), i, Unregister(b, i).ops[i]);
  }

  lemma UnregisterShifts(b: Books, i: nat)
    requires i in b.ops && (b.ops[i].stage.Taken? || b.ops[i].stage.Failing?)
    requires b.ops[i].socket.Some? ==> b.sockets[b.ops[i].socket.value] > 0
    ensures Shifts(b, Unregister(b, i), i, Unregister(b, i).ops[i]) && Unregister(b, i).fault == b.fault
  {
    var x := b.ops[i].socket;
    if x.None? {
      assert Unregister(b, i).sockets == b.sockets;
    } else {
      assert Unregister(b, i).sockets == b.sockets - multiset{x.value};
    }
  }

  lemma ReleaseBalanced(b: Books, i: nat)
    requires Balanced(b) && i in b.ops
    ensures b.ops[i].stage.Leaving? ==> Balanced(ReleasePending(b, i)) && ReleasePending(b, i).fault == b.fault
    ensures b.ops[i].stage.Left? ==> Balanced(ReleaseOutstanding(b, i)) && ReleaseOutstanding(b, i).fault == b.fault
  {
    hide Balanced;
    var o := b.ops[i];
    if o.stage.Leaving? {
      Positive(b, i, PendingOf(o.handle));
      ShiftBalanced(b, ReleasePending(b, i), i, o.(stage := Left(o.stage.fate)));
    } else if o.stage.Left? {
      Positive(b, i, Outstanding);
      ShiftBalanced(b, ReleaseOutstanding(b, i), i, ReleaseOutstanding(b, i).ops[i]);
    }
  }

  lemma TakeBalanced(b: Books, i: nat)
    requires Balanced(b) && PinsHeld(b) && i in b.ops && b.ops[i].stage.Posted?
    ensures Balanced(Take(b, i)) && Take(b, i).fault == b.fault
  {
    hide Balanced;
    assert HoldsPin(b.ops[i].stage);
    ShiftBalanced(b, Take(b, i), i, b.ops[i].(stage := Taken));
  }

  /** Moves between stages that all counters see alike. */
  lemma MoveBalanced(b: Books, i: nat, o: Op)
    requires Balanced(b) && (forall k :: Counted(k, o) == (i in b.ops && Counted(k, b.ops[i])))
    ensures Balanced(Put(b, i, o))
  {
    hide Balanced, Counted;
    ShiftBalanced(b, Put(b, i, o), i, o);
  }

  lemma SweepBalanced(b: Books, due: set<nat>, w: Worker)
    requires Balanced(b) && Stories(b)
    ensures (forall i :: i in due ==> AtStage(b, i, Armed)) ==> Balanced(Claim(b, due, w))
    ensures Balanced(ClearTimers(b))
    ensures Claim(b, due, w).fault == ClearTimers(b).fault == b.fault
  {
    hide Balanced;
    if forall i :: i in due ==> AtStage(b, i, Armed) {
      SameBalanced(b, Claim(b, due, w));
    }
    ClearSame(b);
    SameBalanced(b, ClearTimers(b));
  }

  lemma ClearSame(b: Books)
    requires Stories(b)
    ensures forall k, i :: i in b.ops ==> Counted(k, ClearTimers(b).ops[i]) == Counted(k, b.ops[i])
  {
  }

  lemma SameBalanced(b: Books, t: Books)
    requires Balanced(b) && t.ops.Keys == b.ops.Keys && (forall k, i :: i in b.ops ==> Counted(k, t.ops[i]) == Counted(k, b.ops[i]))
    requires t == b.(ops := t.ops)
    ensures Balanced(t)
  {
    hide Counted, Count;
    forall k ensures Value(t, k) == Count(t.ops, k) {
      CountSame(b.ops, t.ops, k);
      assert Value(b, k) == Count(b.ops, k);
    }
  }

  lemma DoBalanced(b: Books, a: Act)
    requires Inv(b) && Can(b, a)
    ensures Balanced(Do(b, a)) && !Do(b, a).fault
  {
    hide Balanced, Stories, PinsHeld, Take, ReleasePending, ReleaseOutstanding, Unregister, AddSocket, AddPending, AddOutstanding, Claim, ClearTimers, Free;
    match a
    case AddSocketA(i) => AddBalanced(b, i);
    case AddPendingA(i) => AddBalanced(b, i);
    case AddOutstandingA(i) => AddBalanced(b, i);
    case ClaimA(due, w) => SweepBalanced(b, due, w);
    case ClearA => SweepBalanced(b, {}, 0);
    case TakeA(i) => TakeBalanced(b, i);
    case UnregisterA(i) => UnregisterBalanced(b, i);
    case ReleasePendingA(i) => ReleaseBalanced(b, i);
    case ReleaseOutstandingA(i) => ReleaseBalanced(b, i);
    case _ => MovesBalanced(b, a);
  }

  predicate JustMoves(a: Act) {
    a.BeginA? || a.KernelA? || a.InsertA? || a.PublishA? || a.CancelA? || a.PostClaimA? || a.DispatchA?
  }

  lemma MovesBalanced(b: Books, a: Act)
    requires Inv(b) && Can(b, a) && JustMoves(a)
    ensures Balanced(Do(b, a)) && !Do(b, a).fault
  {
    hide Balanced, PinsHeld, Stories, Free, Counted;
    var o := Do(b, a).ops[a.i];
    MoveCounts(b, a);
    assert Do(b, a) == Put(b, a.i, o);
    MoveBalanced(b, a.i, o);
  }

  lemma MoveCounts(b: Books, a: Act)
    requires Stories(b) && Can(b, a) && JustMoves(a)
    ensures forall k :: Counted(k, Do(b, a).ops[a.i]) == (a.i in b.ops && Counted(k, b.ops[a.i]))
  {
    hide Free, Counted, IsOutstanding, IsPending, OnSocket, Stories;
    var o := Do(b, a).ops[a.i];
    if a.BeginA? {
      BegunUncounted(o);
    } else {
      MoveStages(b, a);
      LikeCounted(b.ops[a.i], o);
    }
  }

  lemma MoveStages(b: Books, a: Act)
    requires Stories(b) && Can(b, a) && JustMoves(a) && !a.BeginA?
    ensures var o, p := b.ops[a.i], Do(b, a).ops[a.i];
            && p.handle == o.handle && p.socket == o.socket
            && IsOutstanding(p.stage) == IsOutstanding(o.stage) && IsPending(p.stage) == IsPending(o.stage)
            && (o.socket.None? || OnSocket(p.stage) == OnSocket(o.stage))
  {
    assert Single(b.ops[a.i]);
  }

  lemma BegunUncounted(o: Op)
    requires o.stage.Begun?
    ensures forall k :: !Counted(k, o)
  {
  }

  lemma LikeCounted(o: Op, p: Op)
    requires p.handle == o.handle && p.socket == o.socket
    requires IsOutstanding(p.stage) == IsOutstanding(o.stage) && IsPending(p.stage) == IsPending(o.stage)
    requires o.socket.None? || OnSocket(p.stage) == OnSocket(o.stage)
    ensures forall k :: Counted(k, p) == Counted(k, o)
  {
    hide IsOutstanding, IsPending, OnSocket;
  }

  // ----- Pins and stories

  lemma PutPins(b: Books, t: Books, i: nat, o: Op)
    requires PinsHeld(b) && t.ops == b.ops[i := o]
    requires HoldsPin(o.stage) ==> o.ctx in t.pins && t.pins[o.ctx] == o.handle
    requires Holds(o.stage) ==> forall j :: j in b.ops && j != i && Holds(b.ops[j].stage) ==> b.ops[j].ctx != o.ctx
    requires forall j :: j in b.ops && j != i && HoldsPin(b.ops[j].stage) ==> b.ops[j].ctx in t.pins && t.pins[b.ops[j].ctx] == b.pins[b.ops[j].ctx]
    ensures PinsHeld(t)
  {
    hide Holds, HoldsPin;
  }

  /** An operation that keeps its context, and its pin if it had one, disturbs no other. */
  lemma StayPins(b: Books, t: Books, i: nat, o: Op)
    requires PinsHeld(b) && t.ops == b.ops[i := o] && t.pins == b.pins && i in b.ops
    requires Holds(o.stage) ==> o.ctx == b.ops[i].ctx && Holds(b.ops[i].stage)
    requires HoldsPin(o.stage) ==> o.handle == b.ops[i].handle && HoldsPin(b.ops[i].stage)
    ensures PinsHeld(t)
  {
    hide Holds, HoldsPin;
    PinStage(o.stage);
    PutPins(b, t, i, o);
  }

  lemma BeginPins(b: Books, i: nat, ctx: Context, handle: Handle, socket: Option<Socket>, timer: bool)
    requires PinsHeld(b) && i !in b.ops && Free(b, ctx)
    ensures PinsHeld(Begin(b, i, ctx, handle, socket, timer))
  {
    hide Holds, HoldsPin;
    var t := Begin(b, i, ctx, handle, socket, timer);
    forall j | j in b.ops && Holds(b.ops[j].stage) ensures b.ops[j].ctx != ctx {
      if !b.ops[j].stage.Begun? && !b.ops[j].stage.Registered? {
        PinStage(b.ops[j].stage);
      }
    }
    assert !HoldsPin(Begun) by { PinStage(Begun); }
    PutPins(b, t, i, t.ops[i]);
  }

  lemma PinStage(stage: Stage)
    ensures HoldsPin(stage) <==> Holds(stage) && !stage.Begun? && !stage.Registered?
  {
  }

  lemma AddPins(b: Books, i: nat)
    requires PinsHeld(b) && AtStage(b, i, Registered)
    ensures PinsHeld(AddPending(b, i))
  {
    assert Holds(Registered);
    forall j | j in b.ops && HoldsPin(b.ops[j].stage) ensures Holds(b.ops[j].stage) {
    }
    hide Holds, HoldsPin;
    PutPins(b, AddPending(b, i), i, b.ops[i].(stage := Pinned));
  }

  lemma TakePins(b: Books, i: nat)
    requires PinsHeld(b) && AtStage(b, i, Posted)
    ensures PinsHeld(Take(b, i))
  {
    assert Holds(Posted) && HoldsPin(Posted) && !Holds(Taken) && !HoldsPin(Taken);
    forall j | j in b.ops && HoldsPin(b.ops[j].stage) ensures Holds(b.ops[j].stage) {
    }
    hide Holds, HoldsPin;
    PutPins(b, Take(b, i), i, Take(b, i).ops[i]);
  }

  lemma GonePins(b: Books, i: nat)
    requires PinsHeld(b) && i in b.ops && b.ops[i].stage.Left?
    ensures PinsHeld(ReleaseOutstanding(b, i))
  {
    var o := b.ops[i];
    assert !o.stage.fate.Delivered? ==> Holds(o.stage);
    assert !Holds(Gone(o.stage.fate)) && !HoldsPin(Gone(o.stage.fate));
    forall j | j in b.ops && HoldsPin(b.ops[j].stage) ensures Holds(b.ops[j].stage) {
    }
    hide Holds, HoldsPin;
    PutPins(b, ReleaseOutstanding(b, i), i, ReleaseOutstanding(b, i).ops[i]);
  }

  lemma SweepPins(b: Books, t: Books)
    requires PinsHeld(b) && t.ops.Keys == b.ops.Keys && t.pins == b.pins
    requires forall i :: i in b.ops ==> t.ops[i].ctx == b.ops[i].ctx && t.ops[i].handle == b.ops[i].handle
                                        && Holds(t.ops[i].stage) == Holds(b.ops[i].stage) && HoldsPin(t.ops[i].stage) == HoldsPin(b.ops[i].stage)
    ensures PinsHeld(t)
  {
    hide Holds, HoldsPin;
  }

  lemma MovesPins(b: Books, a: Act)
    requires Inv(b) && Can(b, a) && !a.BeginA? && JustMoves(a)
    ensures PinsHeld(Do(b, a))
  {
    hide Balanced, PinsHeld, Single, Free;
    StayPins(b, Do(b, a), a.i, Do(b, a).ops[a.i]);
  }

  lemma AddsPins(b: Books, i: nat)
    requires PinsHeld(b) && i in b.ops
    ensures AtStage(b, i, Begun) ==> PinsHeld(AddSocket(b, i))
    ensures AtStage(b, i, Pinned) ==> PinsHeld(AddOutstanding(b, i))
  {
    hide PinsHeld;
    var o := b.ops[i];
    if o.stage.Begun? {
      StayPins(b, AddSocket(b, i), i, o.(stage := Registered));
    } else if o.stage.Pinned? {
      StayPins(b, AddOutstanding(b, i), i, o.(stage := Added));
    }
  }

  lemma DropsPins(b: Books, i: nat)
    requires PinsHeld(b) && i in b.ops
    ensures AtStage(b, i, Taken) || AtStage(b, i, Failing) ==> PinsHeld(Unregister(b, i))
    ensures b.ops[i].stage.Leaving? ==> PinsHeld(ReleasePending(b, i))
  {
    hide PinsHeld, Unregister, ReleasePending;
    var o := b.ops[i];
    if o.stage.Taken? || o.stage.Failing? {
      StayPins(b, Unregister(b, i), i, Unregister(b, i).ops[i]);
    } else if o.stage.Leaving? {
      StayPins(b, ReleasePending(b, i), i, ReleasePending(b, i).ops[i]);
    }
  }

  lemma SweepsPins(b: Books, due: set<nat>, w: Worker)
    requires Inv(b)
    ensures (forall i :: i in due ==> AtStage(b, i, Armed)) ==> PinsHeld(Claim(b, due, w))
    ensures PinsHeld(ClearTimers(b))
  {
    hide Balanced, PinsHeld, Single;
    if forall i :: i in due ==> AtStage(b, i, Armed) {
      SweepPins(b, Claim(b, due, w));
    }
    SweepPins(b, ClearTimers(b));
  }

  lemma DoPins(b: Books, a: Act)
    requires Inv(b) && Can(b, a)
    ensures PinsHeld(Do(b, a))
  {
    hide Balanced, PinsHeld, Single, Free, Inv, Take, ReleasePending, ReleaseOutstanding, Unregister, AddSocket, AddPending, AddOutstanding, Claim, ClearTimers;
    assert PinsHeld(b) by { InvPins(b); }
    match a
    case BeginA(i, ctx, handle, socket, timer) => BeginPins(b, i, ctx, handle, socket, timer);
    case AddPendingA(i) => AddPins(b, i);
    case TakeA(i) => TakePins(b, i);
    case ReleaseOutstandingA(i) => GonePins(b, i);
    case ClaimA(due, w) => SweepsPins(b, due, w);
    case ClearA => SweepsPins(b, {}, 0);
    case AddSocketA(i) => AddsPins(b, i);
    case AddOutstandingA(i) => AddsPins(b, i);
    case UnregisterA(i) => DropsPins(b, i);
    case ReleasePendingA(i) => DropsPins(b, i);
    case _ => MovesPins(b, a);
  }

  lemma InvPins(b: Books)
    requires Inv(b)
    ensures PinsHeld(b)
  {
  }

  lemma PutStories(b: Books, t: Books, i: nat)
    requires Stories(b) && i in t.ops && t.ops == b.ops[i := t.ops[i]] && Single(t.ops[i])
    ensures Stories(t)
  {
    hide Single;
  }

  ghost predicate NonePublishing(b: Books) {
    forall i :: i in b.ops ==> !b.ops[i].stage.Publishing?
  }

  lemma SweepStories(b: Books, due: set<nat>, w: Worker)
    requires Stories(b)
    ensures (forall i :: i in due ==> AtStage(b, i, Armed)) ==> Stories(Claim(b, due, w))
    ensures NonePublishing(b) ==> Stories(ClearTimers(b))
  {
  }

  ghost predicate Keeps(b: Books, t: Books, i: nat) {
    i in t.ops && Single(t.ops[i]) && t.ops == b.ops[i := t.ops[i]]
  }

  lemma AddStories(b: Books, i: nat)
    requires i in b.ops && Single(b.ops[i])
    ensures AtStage(b, i, Begun) ==> Keeps(b, AddSocket(b, i), i)
    ensures AtStage(b, i, Registered) ==> Keeps(b, AddPending(b, i), i)
    ensures AtStage(b, i, Pinned) ==> Keeps(b, AddOutstanding(b, i), i)
  {
  }

  lemma DropStories(b: Books, i: nat)
    requires i in b.ops && Single(b.ops[i])
    ensures AtStage(b, i, Taken) || AtStage(b, i, Failing) ==> Keeps(b, Unregister(b, i), i)
    ensures b.ops[i].stage.Leaving? ==> Keeps(b, ReleasePending(b, i), i)
  {
    hide Unregister, ReleasePending;
  }

  lemma GoneStories(b: Books, i: nat)
    requires i in b.ops && Single(b.ops[i]) && b.ops[i].stage.Left?
    ensures Keeps(b, ReleaseOutstanding(b, i), i)
  {
  }

  lemma BeginStories(b: Books, a: Act)
    requires Can(b, a) && a.BeginA?
    ensures Keeps(b, Do(b, a), a.i)
  {
    hide Free;
  }

  lemma PostStories(b: Books, a: Act)
    requires Stories(b) && Can(b, a) && (a.KernelA? || a.InsertA? || a.PublishA?)
    ensures Keeps(b, Do(b, a), a.i)
  {
    assert Single(b.ops[a.i]);
  }

  lemma EndStories(b: Books, a: Act)
    requires Stories(b) && Can(b, a) && (a.CancelA? || a.PostClaimA? || a.DispatchA?)
    ensures Keeps(b, Do(b, a), a.i)
  {
    assert Single(b.ops[a.i]);
  }

  lemma MoveStories(b: Books, a: Act)
    requires Stories(b) && Can(b, a) && JustMoves(a)
    ensures Keeps(b, Do(b, a), a.i)
  {
    hide Do, Can, Stories, Keeps;
    match a
    case BeginA(_, _, _, _, _) => BeginStories(b, a);
    case CancelA(_) => EndStories(b, a);
    case PostClaimA(_, _) => EndStories(b, a);
    case DispatchA(_) => EndStories(b, a);
    case _ => PostStories(b, a);
  }

  lemma TakeStories(b: Books, i: nat)
    requires Stories(b) && PinsHeld(b) && AtStage(b, i, Posted)
    ensures Keeps(b, Take(b, i), i)
  {
    hide PinsHeld;
    PinOf(b, i);
    assert Single(b.ops[i]);
  }

  lemma ActStories(b: Books, a: Act)
    requires Stories(b) && PinsHeld(b) && Can(b, a) && !a.ClaimA? && !a.ClearA?
    ensures Keeps(b, Do(b, a), a.i)
  {
    hide PinsHeld, Free, Keeps, Single, Take, ReleasePending, ReleaseOutstanding, Unregister, AddSocket, AddPending, AddOutstanding;
    match a
    case AddSocketA(i) => AddStories(b, i);
    case AddPendingA(i) => AddStories(b, i);
    case AddOutstandingA(i) => AddStories(b, i);
    case TakeA(i) => TakeStories(b, i);
    case UnregisterA(i) => DropStories(b, i);
    case ReleasePendingA(i) => DropStories(b, i);
    case ReleaseOutstandingA(i) => GoneStories(b, i);
    case _ => MoveStories(b, a);
  }

  lemma DoStories(b: Books, a: Act)
    requires Inv(b) && Can(b, a) && (a.ClearA? ==> NonePublishing(b))
    ensures Stories(Do(b, a))
  {
    hide Balanced, PinsHeld, Free, Stories, NonePublishing, Single, Claim, ClearTimers;
    if a.ClaimA? {
      SweepStories(b, a.due, a.w);
    } else if a.ClearA? {
      SweepStories(b, {}, 0);
    } else {
      ActStories(b, a);
      PutStories(b, Do(b, a), a.i);
    }
  }

  lemma PinOf(b: Books, i: nat)
    requires PinsHeld(b) && AtStage(b, i, Posted)
    ensures b.ops[i].ctx in b.pins && b.pins[b.ops[i].ctx] == b.ops[i].handle
  {
    assert HoldsPin(b.ops[i].stage);
  }

  /** Whatever thread acts, and in whatever order. */
  lemma DoInv(b: Books, a: Act)
    requires Inv(b) && Can(b, a) && (a.ClearA? ==> NonePublishing(b))
    ensures Inv(Do(b, a))
  {
    hide Do, Can, Balanced, PinsHeld, Stories, NonePublishing;
    DoBalanced(b, a);
    DoPins(b, a);
    DoStories(b, a);
  }
}
