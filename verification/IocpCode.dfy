/** The service's counters and timer table, as the methods that update them. */
module IocpCode {
  import opened Bytes
  import opened Cycle
  import opened IocpBooks

  const INFINITE: nat := 0xFFFF_FFFF
  const NANOS: nat := 1_000_000
  const TIMER_IDS: nat := 0x1_0000_0000_0000_0000

  type TimerId = nat

  datatype Phase = PublishingP | PendingP

  /** Times are nanoseconds of the steady clock. */
  datatype TimerState = TimerState(due: nat, handle: Handle, phase: Phase)

  function Number(m: map<nat, nat>, x: nat): nat {
    if x in m then m[x] else 0
  }

  // ----- Timers that are due, and how long to wait for the others

  predicate IsDue(t: TimerState, now: nat) {
    t.due <= now && t.phase.PendingP?
  }

  /** The wait for one timer, in whole milliseconds and below the value that means forever. */
  function Millis(due: nat, now: nat): (ms: nat)
    ensures ms < INFINITE
    ensures ms * NANOS <= (if due <= now then 0 else due - now)
    ensures due > now && ms < INFINITE - 1 ==> due - now < (ms + 1) * NANOS
  {
    if due <= now then 0 else if (due - now) / NANOS >= INFINITE - 1 then INFINITE - 1 else (due - now) / NANOS
  }

  lemma MillisMono(a: nat, b: nat, now: nat)
    requires a <= b
    ensures Millis(a, now) <= Millis(b, now)
  {
    if a > now {
      DivMono(a - now, b - now);
    }
  }

  lemma DivMono(a: nat, b: nat)
    requires a <= b
    ensures a / NANOS <= b / NANOS
  {
  }

  /** The shortest wait of all timers in the table, or forever when there is none. */
  ghost predicate Nearest(timers: map<TimerId, TimerState>, now: nat, wait: nat) {
    if timers == map[] then wait == INFINITE
    else (exists i :: i in timers && wait == Millis(timers[i].due, now)) && forall i :: i in timers ==> wait <= Millis(timers[i].due, now)
  }

  /** Such a wait never oversleeps a timer. */
  lemma NeverOversleeps(timers: map<TimerId, TimerState>, now: nat, wait: nat, i: TimerId)
    requires Nearest(timers, now, wait) && i in timers
    ensures wait < INFINITE && (timers[i].due > now ==> now + wait * NANOS <= timers[i].due) && (timers[i].due <= now ==> wait == 0)
  {
  }

  /** Nor does it end a whole millisecond early, up to the longest wait there is. */
  lemma NeverHurries(timers: map<TimerId, TimerState>, now: nat, wait: nat) returns (i: TimerId)
    requires Nearest(timers, now, wait) && timers != map[]
    ensures i in timers && (wait == INFINITE - 1 || timers[i].due < now + (wait + 1) * NANOS)
  {
    i :| i in timers && wait == Millis(timers[i].due, now);
  }

  /** A worker waits forever exactly when its sweep leaves no timer. */
  lemma ForeverExactly(timers: map<TimerId, TimerState>, now: nat, wait: nat)
    requires Nearest(timers, now, wait)
    ensures wait == INFINITE <==> timers == map[]
  {
    if timers != map[] {
      var i :| i in timers;
      NeverOversleeps(timers, now, wait, i);
    }
  }

  method NearestWait(timers: map<TimerId, TimerState>, now: nat) returns (wait: nat)
    ensures Nearest(timers, now, wait)
  {
    if timers == map[] { return INFINITE; }
    var first :| first in timers;
    var nearest := timers[first].due;
    ghost var which := first;
    var todo := timers.Keys;
    while todo != {}
      invariant todo <= timers.Keys && which in timers && nearest == timers[which].due
      invariant forall i :: i in timers && i !in todo ==> nearest <= timers[i].due
      decreases |todo|
    {
      var i :| i in todo;
      if timers[i].due < nearest {
        nearest := timers[i].due;
        which := i;
      }
      todo := todo - {i};
    }
    wait := Millis(nearest, now);
    forall i | i in timers ensures wait <= Millis(timers[i].due, now) {
      MillisMono(nearest, timers[i].due, now);
    }
  }

  // ----- The table against the books

  function StageOf(p: Phase): Stage {
    if p.PublishingP? then Publishing else Armed
  }

  predicate Tabled(stage: Stage) {
    stage.Publishing? || stage.Armed?
  }

  ghost predicate Entry(timers: map<TimerId, TimerState>, opOf: map<TimerId, nat>, ops: map<nat, Op>, x: TimerId) {
    && x in timers && x in opOf && opOf[x] in ops
    && ops[opOf[x]].stage == StageOf(timers[x].phase) && ops[opOf[x]].handle == timers[x].handle
  }

  /** The table holds exactly the operations that are being published or armed, each under one id. */
  ghost predicate Table(timers: map<TimerId, TimerState>, opOf: map<TimerId, nat>, ops: map<nat, Op>) {
    && opOf.Keys == timers.Keys
    && (forall x :: x in timers ==> Entry(timers, opOf, ops, x))
    && (forall x, y :: x in opOf && y in opOf && opOf[x] == opOf[y] ==> x == y)
    && (forall i :: i in ops && Tabled(ops[i].stage) ==> i in opOf.Values)
  }

  /** An operation outside the table moves, and stays outside. */
  lemma TableApart(timers: map<TimerId, TimerState>, opOf: map<TimerId, nat>, ops: map<nat, Op>, i: nat, o: Op)
    requires Table(timers, opOf, ops) && (i in ops ==> !Tabled(ops[i].stage)) && !Tabled(o.stage)
    ensures Table(timers, opOf, ops[i := o])
  {
    forall x | x in timers ensures Entry(timers, opOf, ops[i := o], x) {
      assert Entry(timers, opOf, ops, x);
    }
  }

  lemma TableInsert(timers: map<TimerId, TimerState>, opOf: map<TimerId, nat>, ops: map<nat, Op>, x: TimerId, t: TimerState, i: nat, o: Op)
    requires Table(timers, opOf, ops) && x !in timers && i in ops && !Tabled(ops[i].stage)
    requires o.stage == StageOf(t.phase) && o.handle == t.handle
    ensures Table(timers[x := t], opOf[x := i], ops[i := o])
  {
    var more, at := timers[x := t], opOf[x := i];
    forall y | y in more ensures Entry(more, at, ops[i := o], y) {
      assert y != x ==> Entry(timers, opOf, ops, y);
    }
    forall y, z | y in at && z in at && at[y] == at[z] ensures y == z {
      assert y != x ==> Entry(timers, opOf, ops, y);
      assert z != x ==> Entry(timers, opOf, ops, z);
    }
    forall j | j in ops[i := o] && Tabled(ops[i := o][j].stage) ensures j in at.Values {
      assert at[x] == i;
      if j != i {
        var y :| y in opOf && opOf[y] == j;
        assert at[y] == j;
      }
    }
  }

  lemma TableRemove(timers: map<TimerId, TimerState>, opOf: map<TimerId, nat>, ops: map<nat, Op>, x: TimerId, o: Op)
    requires Table(timers, opOf, ops) && x in timers && !Tabled(o.stage)
    ensures x in opOf && opOf[x] in ops && Table(timers - {x}, opOf - {x}, ops[opOf[x] := o])
  {
    assert Entry(timers, opOf, ops, x);
    var i, less, at := opOf[x], timers - {x}, opOf - {x};
    forall y | y in less ensures Entry(less, at, ops[i := o], y) {
      assert Entry(timers, opOf, ops, y);
    }
    forall j | j in ops[i := o] && Tabled(ops[i := o][j].stage) ensures j in at.Values {
      var y :| y in opOf && opOf[y] == j;
      assert at[y] == j;
    }
  }

  lemma TablePublish(timers: map<TimerId, TimerState>, opOf: map<TimerId, nat>, ops: map<nat, Op>, x: TimerId, t: TimerState, o: Op)
    requires Table(timers, opOf, ops) && x in timers && o.stage == StageOf(t.phase) && o.handle == t.handle
    ensures x in opOf && opOf[x] in ops && Table(timers[x := t], opOf, ops[opOf[x] := o])
  {
    assert Entry(timers, opOf, ops, x);
    var i, more := opOf[x], timers[x := t];
    forall y | y in more ensures Entry(more, opOf, ops[i := o], y) {
      assert Entry(timers, opOf, ops, y);
    }
  }

  ghost function OpsOf(opOf: map<TimerId, nat>, ids: set<TimerId>): set<nat> {
    set x | x in ids && x in opOf :: opOf[x]
  }

  /** The sweep takes entries out of the table, and their operations out of the table's stages. */
  lemma TableSweep(timers: map<TimerId, TimerState>, opOf: map<TimerId, nat>, ops: map<nat, Op>, ids: set<TimerId>, more: map<nat, Op>)
    requires Table(timers, opOf, ops) && ids <= timers.Keys && more.Keys == ops.Keys
    requires forall i :: i in ops ==> if i in OpsOf(opOf, ids) then !Tabled(more[i].stage) else more[i] == ops[i]
    ensures Table(timers - ids, opOf - ids, more)
  {
    var less, at := timers - ids, opOf - ids;
    forall y | y in less ensures Entry(less, at, more, y) {
      assert Entry(timers, opOf, ops, y);
      assert opOf[y] !in OpsOf(opOf, ids);
    }
    forall j | j in more && Tabled(more[j].stage) ensures j in at.Values {
      var y :| y in opOf && opOf[y] == j;
      assert y !in ids;
      assert at[y] == j;
    }
  }

  /** Every act that is neither on the table nor a sweep leaves the table alone. */
  lemma KeepsTable(timers: map<TimerId, TimerState>, opOf: map<TimerId, nat>, b: Books, a: Act)
    requires Table(timers, opOf, b.ops) && Can(b, a)
    requires a.AddSocketA? || a.AddPendingA? || a.AddOutstandingA? || a.UnregisterA? || a.ReleasePendingA? || a.ReleaseOutstandingA?
    ensures Table(timers, opOf, Do(b, a).ops)
  {
    hide Table;
    OneMoves(b, a);
    TableApart(timers, opOf, b.ops, a.i, Do(b, a).ops[a.i]);
  }

  lemma OneMoves(b: Books, a: Act)
    requires Can(b, a)
    requires a.AddSocketA? || a.AddPendingA? || a.AddOutstandingA? || a.UnregisterA? || a.ReleasePendingA? || a.ReleaseOutstandingA?
    ensures a.i in b.ops && !Tabled(b.ops[a.i].stage)
    ensures a.i in Do(b, a).ops && Do(b, a).ops == b.ops[a.i := Do(b, a).ops[a.i]] && !Tabled(Do(b, a).ops[a.i].stage)
  {
    hide Unregister, ReleasePending;
  }

  lemma AddsNext(b: Books, i: nat)
    requires Can(b, AddPendingA(i))
    ensures Can(Do(b, AddPendingA(i)), AddOutstandingA(i))
  {
  }

  lemma TimerAct(timers: map<TimerId, TimerState>, opOf: map<TimerId, nat>, b: Books, x: TimerId, ok: bool)
    requires Table(timers, opOf, b.ops) && x in timers && timers[x].phase.PublishingP?
    ensures x in opOf && Can(b, PublishA(opOf[x], ok))
    ensures var t := Do(b, PublishA(opOf[x], ok));
            && t == b.(ops := t.ops)
            && if ok then Table(timers[x := timers[x].(phase := PendingP)], opOf, t.ops) else Table(timers - {x}, opOf - {x}, t.ops)
  {
    assert Entry(timers, opOf, b.ops, x);
    hide Table;
    var o := b.ops[opOf[x]];
    if ok {
      TablePublish(timers, opOf, b.ops, x, timers[x].(phase := PendingP), o.(stage := Armed, armed := true));
    } else {
      TableRemove(timers, opOf, b.ops, x, o.(stage := Leaving(Failed)));
    }
  }

  lemma CancelAct(timers: map<TimerId, TimerState>, opOf: map<TimerId, nat>, b: Books, x: TimerId)
    requires Table(timers, opOf, b.ops) && x in timers && timers[x].phase.PendingP?
    ensures x in opOf && Can(b, CancelA(opOf[x]))
    ensures var t := Do(b, CancelA(opOf[x])); t == b.(ops := t.ops) && Table(timers - {x}, opOf - {x}, t.ops)
  {
    assert Entry(timers, opOf, b.ops, x);
    hide Table;
    TableRemove(timers, opOf, b.ops, x, b.ops[opOf[x]].(stage := Leaving(Cancelled), cancelled := true));
  }

  lemma ClaimAct(timers: map<TimerId, TimerState>, opOf: map<TimerId, nat>, b: Books, ids: set<TimerId>, now: nat, w: Worker)
    requires Table(timers, opOf, b.ops) && ids == set x | x in timers && IsDue(timers[x], now)
    ensures Can(b, ClaimA(OpsOf(opOf, ids), w))
    ensures var t := Do(b, ClaimA(OpsOf(opOf, ids), w)); t == b.(ops := t.ops) && Table(timers - ids, opOf - ids, t.ops)
  {
    DueArmed(timers, opOf, b, ids, now);
    hide Table, OpsOf;
    TableSweep(timers, opOf, b.ops, ids, Do(b, ClaimA(OpsOf(opOf, ids), w)).ops);
  }

  // ----- The counters against the books

  /** A socket without operations has no entry. */
  ghost predicate Counts(outstanding: int, sockets: map<Socket, nat>, pending: map<Handle, nat>, b: Books) {
    && outstanding == b.outstanding
    && (forall x :: Number(sockets, x) == b.sockets[x])
    && (forall x :: x in sockets ==> sockets[x] > 0)
    && (forall h :: Number(pending, h) == b.pending[h])
  }

  lemma SameCounts(outstanding: int, sockets: map<Socket, nat>, pending: map<Handle, nat>, b: Books, t: Books)
    requires Counts(outstanding, sockets, pending, b) && t.outstanding == b.outstanding && t.sockets == b.sockets && t.pending == b.pending
    ensures Counts(outstanding, sockets, pending, t)
  {
  }

  lemma CountSocket(outstanding: int, sockets: map<Socket, nat>, pending: map<Handle, nat>, b: Books, i: nat)
    requires Counts(outstanding, sockets, pending, b) && Can(b, AddSocketA(i))
    ensures var x := b.ops[i].socket;
            Counts(outstanding, if x.None? then sockets else sockets[x.value := Number(sockets, x.value) + 1], pending, Do(b, AddSocketA(i)))
  {
  }

  function Dropped(sockets: map<Socket, nat>, x: Socket): map<Socket, nat> {
    if x !in sockets then sockets
    else if sockets[x] <= 1 then sockets - {x}
    else sockets[x := sockets[x] - 1]
  }

  lemma CountUnregister(outstanding: int, sockets: map<Socket, nat>, pending: map<Handle, nat>, b: Books, i: nat)
    requires Counts(outstanding, sockets, pending, b) && Can(b, UnregisterA(i))
    ensures var x, t := b.ops[i].socket, Do(b, UnregisterA(i));
            && Counts(outstanding, if x.None? then sockets else Dropped(sockets, x.value), pending, t)
            && (t.fault <==> b.fault || (x.Some? && x.value !in sockets))
            && (x.Some? && x.value in sockets ==> sockets[x.value] > 0)
  {
    hide Do, Can;
    UnregisterEffect(b, i);
    var x := b.ops[i].socket;
    if x.Some? {
      DropOne(sockets, b.sockets, x.value);
    }
  }

  lemma UnregisterEffect(b: Books, i: nat)
    requires Can(b, UnregisterA(i))
    ensures i in b.ops
    ensures var x, t := b.ops[i].socket, Do(b, UnregisterA(i));
            && t.outstanding == b.outstanding && t.pending == b.pending
            && t.sockets == (if x.Some? && x.value in b.sockets then b.sockets - multiset{x.value} else b.sockets)
            && (t.fault <==> b.fault || (x.Some? && x.value !in b.sockets))
  {
  }

  lemma DropOne(sockets: map<Socket, nat>, counted: multiset<Socket>, x: Socket)
    requires (forall y :: Number(sockets, y) == counted[y]) && (forall y :: y in sockets ==> sockets[y] > 0)
    ensures x in counted <==> x in sockets
    ensures var left := if x in counted then counted - multiset{x} else counted;
            && (forall y :: Number(Dropped(sockets, x), y) == left[y])
            && (forall y :: y in Dropped(sockets, x) ==> Dropped(sockets, x)[y] > 0)
  {
    assert Number(sockets, x) == counted[x];
  }

  lemma CountPending(outstanding: int, sockets: map<Socket, nat>, pending: map<Handle, nat>, b: Books, i: nat)
    requires Counts(outstanding, sockets, pending, b) && Can(b, AddPendingA(i))
    ensures var h := b.ops[i].handle; Counts(outstanding, sockets, pending[h := Number(pending, h) + 1], Do(b, AddPendingA(i)))
  {
  }

  lemma CountOutstanding(outstanding: int, sockets: map<Socket, nat>, pending: map<Handle, nat>, b: Books, i: nat)
    requires Counts(outstanding, sockets, pending, b) && Can(b, AddOutstandingA(i))
    ensures Counts(outstanding + 1, sockets, pending, Do(b, AddOutstandingA(i)))
  {
  }

  lemma CountRelease(outstanding: int, sockets: map<Socket, nat>, pending: map<Handle, nat>, b: Books, i: nat)
    requires Counts(outstanding, sockets, pending, b) && Can(b, ReleasePendingA(i))
    ensures var h, t := b.ops[i].handle, Do(b, ReleasePendingA(i));
            && (Number(pending, h) == 0 ==> Counts(outstanding, sockets, pending, t))
            && (Number(pending, h) > 0 ==> h in pending && Counts(outstanding, sockets, pending[h := pending[h] - 1], t))
            && (t.fault <==> b.fault || Number(pending, h) == 0)
  {
    var h := b.ops[i].handle;
    assert h in b.pending <==> Number(pending, h) > 0;
  }

  lemma CountGone(outstanding: int, sockets: map<Socket, nat>, pending: map<Handle, nat>, b: Books, i: nat)
    requires Counts(outstanding, sockets, pending, b) && Can(b, ReleaseOutstandingA(i))
    ensures var t := Do(b, ReleaseOutstandingA(i));
            && Counts(if outstanding > 0 then outstanding - 1 else outstanding, sockets, pending, t)
            && (t.fault <==> b.fault || outstanding <= 0)
  {
  }

  // ----- The service

  class Service {
    var outstandingIo: int
    var pendingSockets: map<Socket, nat>
    /** The pending count of every handle. */
    var pending: map<Handle, nat>
    var timers: map<TimerId, TimerState>
    var nextTimerId: nat
    /** The operation behind every timer of the table. */
    ghost var opOf: map<TimerId, nat>

    /** The counters and the timer table are those of the books; a socket without operations has no entry. */
    ghost predicate Shows(b: Books)
      reads this
    {
      Counts(outstandingIo, pendingSockets, pending, b) && Table(timers, opOf, b.ops) && nextTimerId < TIMER_IDS
    }

    constructor ()
      ensures Shows(EMPTY) && timers == map[] && nextTimerId == 1
    {
      outstandingIo, pendingSockets, pending, timers, nextTimerId := 0, map[], map[], map[], 1;
      opOf := map[];
    }

    method RegisterSocket(socket: Option<Socket>, ghost b: Books, ghost i: nat)
      requires Shows(b) && Can(b, AddSocketA(i)) && b.ops[i].socket == socket
      modifies this`pendingSockets
      ensures Shows(Do(b, AddSocketA(i)))
    {
      hide Table, Counts, Do, Can;
      KeepsTable(timers, opOf, b, AddSocketA(i));
      CountSocket(outstandingIo, pendingSockets, pending, b, i);
      if socket.Some? {
        pendingSockets := pendingSockets[socket.value := Number(pendingSockets, socket.value) + 1];
      }
    }

    /** True reports a missing entry. */
    method UnregisterPendingSocket(socket: Option<Socket>, ghost b: Books, ghost i: nat) returns (missing: bool)
      requires Shows(b) && Can(b, UnregisterA(i)) && b.ops[i].socket == socket
      modifies this`pendingSockets
      ensures Shows(Do(b, UnregisterA(i))) && (Do(b, UnregisterA(i)).fault <==> b.fault || missing)
    {
      hide Table, Counts, Do, Can;
      KeepsTable(timers, opOf, b, UnregisterA(i));
      CountUnregister(outstandingIo, pendingSockets, pending, b, i);
      missing := false;
      if socket.Some? {
        if socket.value !in pendingSockets {
          missing := true;
        } else if pendingSockets[socket.value] == 1 {
          pendingSockets := pendingSockets - {socket.value};
        } else {
          pendingSockets := pendingSockets[socket.value := pendingSockets[socket.value] - 1];
        }
      }
    }

    /** AddPending of the handle, and the outstanding count after it. */
    method AddUnit(h: Handle, ghost b: Books, ghost i: nat)
      requires Shows(b) && Can(b, AddPendingA(i)) && b.ops[i].handle == h
      modifies this`pending, this`outstandingIo
      ensures Can(Do(b, AddPendingA(i)), AddOutstandingA(i)) && Shows(Do(Do(b, AddPendingA(i)), AddOutstandingA(i)))
    {
      hide Table, Counts, Do, Can;
      AddsNext(b, i);
      KeepsTable(timers, opOf, b, AddPendingA(i));
      CountPending(outstandingIo, pendingSockets, pending, b, i);
      pending := pending[h := Number(pending, h) + 1];
      KeepsTable(timers, opOf, Do(b, AddPendingA(i)), AddOutstandingA(i));
      CountOutstanding(outstandingIo, pendingSockets, pending, Do(b, AddPendingA(i)), i);
      outstandingIo := outstandingIo + 1;
    }

    method ReleasePending(h: Handle, ghost b: Books, ghost i: nat) returns (underflow: bool)
      requires Shows(b) && Can(b, ReleasePendingA(i)) && b.ops[i].handle == h
      modifies this`pending
      ensures Shows(Do(b, ReleasePendingA(i))) && (Do(b, ReleasePendingA(i)).fault <==> b.fault || underflow)
    {
      hide Table, Counts, Do, Can;
      KeepsTable(timers, opOf, b, ReleasePendingA(i));
      CountRelease(outstandingIo, pendingSockets, pending, b, i);
      underflow := Number(pending, h) == 0;
      if !underflow {
        pending := pending[h := pending[h] - 1];
      }
    }

    method ReleaseOutstanding(ghost b: Books, ghost i: nat) returns (underflow: bool)
      requires Shows(b) && Can(b, ReleaseOutstandingA(i))
      modifies this`outstandingIo
      ensures Shows(Do(b, ReleaseOutstandingA(i))) && (Do(b, ReleaseOutstandingA(i)).fault <==> b.fault || underflow)
    {
      hide Table, Counts, Do, Can;
      KeepsTable(timers, opOf, b, ReleaseOutstandingA(i));
      CountGone(outstandingIo, pendingSockets, pending, b, i);
      underflow := outstandingIo <= 0;
      if !underflow {
        outstandingIo := outstandingIo - 1;
      }
    }

    /** The first number from the counter that is neither 0 nor in the table; the counter wraps at 64 bits. */
    method AllocTimerId() returns (id: TimerId)
      requires nextTimerId < TIMER_IDS && |timers| + 1 < TIMER_IDS
      modifies this`nextTimerId
      ensures id != 0 && id !in timers && nextTimerId < TIMER_IDS
    {
      hide Place;
      ghost var start := nextTimerId;
      ghost var taken := timers.Keys + {0};
      ghost var k := 0;
      Around(start, 0);
      id := nextTimerId;
      nextTimerId := (nextTimerId + 1) % TIMER_IDS;
      while id == 0 || id in timers
        invariant 0 <= k <= |taken| && id == Place(start, k, TIMER_IDS) && nextTimerId == Place(start, k + 1, TIMER_IDS) < TIMER_IDS
        invariant forall j :: 0 <= j < k ==> Place(start, j, TIMER_IDS) in taken
        decreases |taken| - k
      {
        Covers(taken, start, k + 1, TIMER_IDS);
        Around(start, k + 1);
        id := nextTimerId;
        nextTimerId := (nextTimerId + 1) % TIMER_IDS;
        k := k + 1;
      }
    }

    /** A counted timer enters the table under a free id, not yet visible to the workers. */
    method InsertTimer(h: Handle, due: nat, ghost b: Books, ghost i: nat) returns (id: TimerId)
      requires Shows(b) && Can(b, InsertA(i)) && b.ops[i].handle == h && |timers| + 1 < TIMER_IDS
      modifies this`timers, this`nextTimerId, this`opOf
      ensures Shows(Do(b, InsertA(i))) && id != 0 && id !in old(timers) && id in opOf && opOf[id] == i
      ensures timers == old(timers)[id := TimerState(due, h, PublishingP)]
    {
      hide Table, Counts;
      id := AllocTimerId();
      SameCounts(outstandingIo, pendingSockets, pending, b, Do(b, InsertA(i)));
      var t := TimerState(due, h, PublishingP);
      TableInsert(timers, opOf, b.ops, id, t, i, b.ops[i].(stage := Publishing));
      timers := timers[id := t];
      opOf := opOf[id := i];
    }

    /** The port was told of it, and it is armed; or it could not be, and the timer goes. */
    method PublishTimer(id: TimerId, ok: bool, ghost b: Books)
      requires Shows(b) && id in timers && timers[id].phase.PublishingP?
      modifies this`timers, this`opOf
      ensures id in old(opOf) && Can(b, PublishA(old(opOf)[id], ok)) && Shows(Do(b, PublishA(old(opOf)[id], ok)))
      ensures timers == if ok then old(timers)[id := old(timers)[id].(phase := PendingP)] else old(timers) - {id}
    {
      hide Table, Counts, Do, Can;
      TimerAct(timers, opOf, b, id, ok);
      SameCounts(outstandingIo, pendingSockets, pending, b, Do(b, PublishA(opOf[id], ok)));
      if ok {
        timers := timers[id := timers[id].(phase := PendingP)];
      } else {
        timers := timers - {id};
        opOf := opOf - {id};
      }
    }

    /** Only a pending timer is taken out; what is claimed or being published is left alone. */
    method CancelTimeout(id: TimerId, ghost b: Books) returns (found: bool)
      requires Shows(b)
      modifies this`timers, this`opOf
      ensures found <==> id in old(timers) && old(timers)[id].phase.PendingP?
      ensures found ==> id in old(opOf) && Can(b, CancelA(old(opOf)[id])) && Shows(Do(b, CancelA(old(opOf)[id]))) && timers == old(timers) - {id}
      ensures !found ==> Shows(b) && timers == old(timers)
    {
      if id !in timers { return false; }
      if !timers[id].phase.PendingP? { return false; }
      hide Table, Counts, Do, Can;
      CancelAct(timers, opOf, b, id);
      SameCounts(outstandingIo, pendingSockets, pending, b, Do(b, CancelA(opOf[id])));
      timers := timers - {id};
      opOf := opOf - {id};
      found := true;
    }

    /**
     One sweep with all that follows: the claimed timers are posted, or discarded and released when
     the service does not run, the port is gone or a post fails. `t` are the books at the end.
     */
    method AdvanceTimers(now: nat, running: bool, port: bool, posts: TimerId -> bool, ghost w: Worker, ghost b: Books)
      returns (waitMs: nat, ghost t: Books)
      requires Shows(b) && IocpBooks.Inv(b)
      modifies this`timers, this`opOf, this`pending, this`outstandingIo
      ensures Shows(t) && IocpBooks.Inv(t)
      ensures timers == map x | x in old(timers) && (old(timers)[x].due > now || !old(timers)[x].phase.PendingP?) :: old(timers)[x]
      ensures if running then Nearest(timers, now, waitMs) else waitMs == 0
      ensures forall x :: x in old(timers) && old(timers)[x].due <= now && old(timers)[x].phase.PendingP? ==>
                x in old(opOf) && old(opOf)[x] in t.ops
                && t.ops[old(opOf)[x]].stage == if running && port && posts(x) then Posted else Gone(Discarded)
    {
      hide Table, Counts, IocpBooks.Inv, Do, Can, Nearest, OpsOf, InHand;
      var all := timers;
      ghost var ops := opOf;
      var claimed;
      claimed, waitMs := ClaimTimers(now, w, b);
      if !running { waitMs := 0; }
      var items := map x | x in claimed :: all[x].handle;
      DoInv(b, ClaimA(OpsOf(ops, claimed), w));
      ClaimedInHand(all, ops, b, items, claimed, now, w);
      t := HandOver(items, (x: TimerId) => running && port && posts(x), ops, Do(b, ClaimA(OpsOf(ops, claimed), w)));
      InHandEntries(all, ops, b.ops, claimed);
      assert timers.Keys == set x | x in all && !IsDue(all[x], now);
    }

    /** Every claimed timer is posted to the port, or its unit is released and it is deleted. */
    method HandOver(items: map<TimerId, Handle>, posts: TimerId -> bool, ghost ops: map<TimerId, nat>, ghost b: Books) returns (ghost t: Books)
      requires Shows(b) && IocpBooks.Inv(b) && InHand(items, ops, b.ops)
      modifies this`pending, this`outstandingIo
      ensures Shows(t) && IocpBooks.Inv(t)
      ensures Handed(items.Keys, ops, t.ops, posts)
    {
      hide Table, Counts, IocpBooks.Inv, InHand, Handed;
      var todo := items;
      t := b;
      HandedNone(items, ops, b.ops, posts);
      while todo != map[]
        invariant Shows(t) && IocpBooks.Inv(t) && todo.Keys <= items.Keys && InHand(todo, ops, t.ops)
        invariant Handed(items.Keys - todo.Keys, ops, t.ops, posts)
        decreases |todo|
      {
        var x :| x in todo;
        HandsItem(todo, ops, t.ops, x);
        ghost var u := HandOne(todo[x], posts(x), ops[x], t);
        HandedOne(items.Keys, todo, ops, t.ops, u.ops, x, posts);
        SmallerItems(todo, x);
        t := u;
        todo := todo - {x};
      }
      HandedAll(items, ops, t.ops, posts);
    }

    method HandOne(h: Handle, ok: bool, ghost i: nat, ghost b: Books) returns (ghost u: Books)
      requires Shows(b) && IocpBooks.Inv(b) && i in b.ops && b.ops[i].stage.Claimed? && b.ops[i].handle == h
      modifies this`pending, this`outstandingIo
      ensures Shows(u) && IocpBooks.Inv(u) && i in u.ops && u.ops == b.ops[i := u.ops[i]]
      ensures u.ops[i].stage == if ok then Posted else Gone(Discarded)
    {
      hide Table, Counts, IocpBooks.Inv, Do, Can;
      HandsOne(b, i, ok);
      DoInv(b, PostClaimA(i, ok));
      KeepsPost(timers, opOf, b, i, ok);
      u := Do(b, PostClaimA(i, ok));
      SameCounts(outstandingIo, pendingSockets, pending, b, u);
      if !ok {
        DoInv(u, ReleasePendingA(i));
        var underflow := ReleasePending(h, u, i);
        u := Do(u, ReleasePendingA(i));
        DoInv(u, ReleaseOutstandingA(i));
        underflow := ReleaseOutstanding(u, i);
        u := Do(u, ReleaseOutstandingA(i));
      }
    }

    /** The sweep itself: exactly the pending timers that are due are claimed and leave the table. */
    method ClaimTimers(now: nat, ghost w: Worker, ghost b: Books) returns (claimed: set<TimerId>, waitMs: nat)
      requires Shows(b)
      modifies this`timers, this`opOf
      ensures claimed == set i | i in old(timers) && old(timers)[i].due <= now && old(timers)[i].phase.PendingP?
      ensures timers == old(timers) - claimed && Nearest(timers, now, waitMs) && (waitMs == INFINITE <==> timers == map[])
      ensures Can(b, ClaimA(OpsOf(old(opOf), claimed), w)) && Shows(Do(b, ClaimA(OpsOf(old(opOf), claimed), w)))
    {
      hide Table, Counts, Do, Can, Nearest, OpsOf;
      claimed := SweepDue(now);
      waitMs := NearestWait(timers, now);
      ForeverExactly(timers, now, waitMs);
      ClaimAct(old(timers), opOf, b, claimed, now, w);
      SameCounts(outstandingIo, pendingSockets, pending, b, Do(b, ClaimA(OpsOf(opOf, claimed), w)));
      opOf := opOf - claimed;
    }

    method SweepDue(now: nat) returns (claimed: set<TimerId>)
      modifies this`timers
      ensures claimed == set i | i in old(timers) && IsDue(old(timers)[i], now)
      ensures timers == old(timers) - claimed
    {
      claimed := {};
      var todo := timers.Keys;
      while todo != {}
        invariant todo <= timers.Keys && timers == old(timers) - claimed
        invariant claimed == set i | i in old(timers) && i !in todo && IsDue(old(timers)[i], now)
        decreases |todo|
      {
        var i :| i in todo;
        if IsDue(timers[i], now) {
          claimed := claimed + {i};
          timers := timers - {i};
        }
        todo := todo - {i};
      }
    }

    /**
     Stop's sweep: the table is emptied, and every timer in it is cancelled and its unit released,
     without ever meeting an underflow. `t` are the books at the end.
     */
    method ClearTimers(ghost b: Books) returns (ghost t: Books)
      requires Shows(b) && IocpBooks.Inv(b) && NonePublishing(b)
      modifies this`timers, this`outstandingIo, this`pending, this`opOf
      ensures Shows(t) && IocpBooks.Inv(t) && timers == map[] && Swept(b, t, {})
    {
      hide Table, Counts, IocpBooks.Inv, Swept;
      var doomed := timers;
      ghost var ops := opOf;
      DoInv(b, ClearA);
      ClearStart(timers, opOf, b);
      t := Do(b, ClearA);
      timers := map[];
      opOf := map[];
      SameCounts(outstandingIo, pendingSockets, pending, b, t);
      while doomed != map[]
        invariant timers == map[] && Shows(t) && IocpBooks.Inv(t)
        invariant Doomed(doomed, ops, b.ops, t.ops) && Swept(b, t, OpsOf(ops, doomed.Keys))
        decreases |doomed|
      {
        var x :| x in doomed;
        ghost var i := ops[x];
        DoomedOne(doomed, ops, t, x, b);
        ghost var u := Do(t, ReleasePendingA(i));
        DoInv(t, ReleasePendingA(i));
        var underflow := ReleasePending(doomed[x].handle, t, i);
        AfterPending(t, i);
        DoInv(u, ReleaseOutstandingA(i));
        underflow := ReleaseOutstanding(u, i);
        t := Do(u, ReleaseOutstandingA(i));
        SmallerMap(doomed, x);
        doomed := doomed - {x};
      }
      NothingDoomed(ops);
    }
  }

  lemma DueArmed(timers: map<TimerId, TimerState>, opOf: map<TimerId, nat>, b: Books, ids: set<TimerId>, now: nat)
    requires Table(timers, opOf, b.ops) && forall x :: x in ids ==> x in timers && IsDue(timers[x], now)
    ensures forall i :: i in OpsOf(opOf, ids) ==> AtStage(b, i, Armed)
  {
    forall x | x in ids ensures AtStage(b, opOf[x], Armed) {
      assert Entry(timers, opOf, b.ops, x);
    }
  }

  // ----- What a worker has claimed

  ghost predicate InHand(items: map<TimerId, Handle>, ops: map<TimerId, nat>, now: map<nat, Op>) {
    && items.Keys <= ops.Keys
    && (forall x :: x in items ==> ops[x] in now && now[ops[x]].stage.Claimed? && now[ops[x]].handle == items[x])
    && (forall x, y :: x in ops && y in ops && ops[x] == ops[y] ==> x == y)
  }

  lemma ClaimedInHand(timers: map<TimerId, TimerState>, ops: map<TimerId, nat>, b: Books, items: map<TimerId, Handle>, ids: set<TimerId>, now: nat, w: Worker)
    requires Table(timers, ops, b.ops) && ids == set x | x in timers && IsDue(timers[x], now)
    requires items.Keys == ids && forall x :: x in ids ==> items[x] == timers[x].handle
    requires Can(b, ClaimA(OpsOf(ops, ids), w))
    ensures InHand(items, ops, Do(b, ClaimA(OpsOf(ops, ids), w)).ops)
  {
    forall x | x in items ensures Entry(timers, ops, b.ops, x) && ops[x] in OpsOf(ops, ids) {
    }
  }

  lemma InHandEntries(timers: map<TimerId, TimerState>, ops: map<TimerId, nat>, was: map<nat, Op>, ids: set<TimerId>)
    requires Table(timers, ops, was) && ids <= timers.Keys
    ensures forall x :: x in ids ==> x in ops
  {
  }

  /** These were posted, or discarded and released. */
  ghost predicate Handed(ids: set<TimerId>, ops: map<TimerId, nat>, now: map<nat, Op>, posts: TimerId -> bool) {
    forall x :: x in ids ==> x in ops && ops[x] in now && now[ops[x]].stage == if posts(x) then Posted else Gone(Discarded)
  }

  lemma HandedNone(items: map<TimerId, Handle>, ops: map<TimerId, nat>, now: map<nat, Op>, posts: TimerId -> bool)
    ensures Handed(items.Keys - items.Keys, ops, now, posts)
  {
  }

  lemma HandedAll(items: map<TimerId, Handle>, ops: map<TimerId, nat>, now: map<nat, Op>, posts: TimerId -> bool)
    requires Handed(items.Keys - {}, ops, now, posts)
    ensures Handed(items.Keys, ops, now, posts)
  {
  }

  lemma HandsItem(todo: map<TimerId, Handle>, ops: map<TimerId, nat>, now: map<nat, Op>, x: TimerId)
    requires InHand(todo, ops, now) && x in todo
    ensures x in ops && ops[x] in now && now[ops[x]].stage.Claimed? && now[ops[x]].handle == todo[x]
  {
  }

  lemma HandedOne(ids: set<TimerId>, todo: map<TimerId, Handle>, ops: map<TimerId, nat>, was: map<nat, Op>, now: map<nat, Op>, x: TimerId, posts: TimerId -> bool)
    requires InHand(todo, ops, was) && Handed(ids - todo.Keys, ops, was, posts) && x in todo && x in ops && ops[x] in now
    requires now == was[ops[x] := now[ops[x]]] && now[ops[x]].stage == if posts(x) then Posted else Gone(Discarded)
    ensures InHand(todo - {x}, ops, now) && Handed(ids - (todo - {x}).Keys, ops, now, posts)
  {
  }

  /** One claimed operation goes to the port, or all the way out. */
  lemma HandsOne(t: Books, i: nat, ok: bool)
    requires i in t.ops && t.ops[i].stage.Claimed?
    ensures Can(t, PostClaimA(i, ok))
    ensures var u := Do(t, PostClaimA(i, ok));
            && u == t.(ops := t.ops[i := t.ops[i].(stage := if ok then Posted else Leaving(Discarded))])
            && (!ok ==> Can(u, ReleasePendingA(i)) && Can(Do(u, ReleasePendingA(i)), ReleaseOutstandingA(i))
                        && var v := Do(Do(u, ReleasePendingA(i)), ReleaseOutstandingA(i));
                           i in v.ops && v.ops == t.ops[i := v.ops[i]] && v.ops[i].stage == Gone(Discarded))
  {
    if !ok {
      OutOne(Do(t, PostClaimA(i, false)), i);
    }
  }

  lemma OutOne(u: Books, i: nat)
    requires i in u.ops && u.ops[i].stage.Leaving?
    ensures Can(u, ReleasePendingA(i)) && Can(Do(u, ReleasePendingA(i)), ReleaseOutstandingA(i))
    ensures var v := Do(Do(u, ReleasePendingA(i)), ReleaseOutstandingA(i));
            i in v.ops && v.ops == u.ops[i := v.ops[i]] && v.ops[i].stage == Gone(u.ops[i].stage.fate)
  {
    hide ReleasePending;
  }

  lemma KeepsPost(timers: map<TimerId, TimerState>, opOf: map<TimerId, nat>, b: Books, i: nat, ok: bool)
    requires Table(timers, opOf, b.ops) && i in b.ops && b.ops[i].stage.Claimed? && Can(b, PostClaimA(i, ok))
    ensures Table(timers, opOf, Do(b, PostClaimA(i, ok)).ops)
  {
    hide Table;
    TableApart(timers, opOf, b.ops, i, b.ops[i].(stage := if ok then Posted else Leaving(Discarded)));
  }

  lemma SmallerItems(m: map<TimerId, Handle>, x: TimerId)
    requires x in m
    ensures |m - {x}| < |m|
  {
    assert (m - {x}).Keys == m.Keys - {x};
  }

  // ----- Clearing

  /** The timers still to be released have left the table's stages and nothing else. */
  ghost predicate Doomed(doomed: map<TimerId, TimerState>, ops: map<TimerId, nat>, was: map<nat, Op>, now: map<nat, Op>) {
    && doomed.Keys <= ops.Keys
    && (forall x :: x in doomed ==> ops[x] in now && now[ops[x]].stage == Leaving(Cleared) && now[ops[x]].handle == doomed[x].handle)
    && (forall x :: x in doomed ==> ops[x] in was && was[ops[x]].stage.Armed?)
    && (forall x, y :: x in ops && y in ops && ops[x] == ops[y] ==> x == y)
  }

  /** Every armed operation is gone, cleared, but for those still to be released; no other has moved. */
  ghost predicate Swept(b: Books, t: Books, left: set<nat>) {
    && t.ops.Keys == b.ops.Keys
    && forall i :: i in b.ops ==>
         t.ops[i].stage == if !b.ops[i].stage.Armed? then b.ops[i].stage else if i in left then Leaving(Cleared) else Gone(Cleared)
  }

  lemma ClearStart(timers: map<TimerId, TimerState>, opOf: map<TimerId, nat>, b: Books)
    requires Table(timers, opOf, b.ops) && NonePublishing(b)
    ensures var t := Do(b, ClearA);
            && t == b.(ops := t.ops) && Table(map[], map[], t.ops)
            && Doomed(timers, opOf, b.ops, t.ops) && Swept(b, t, OpsOf(opOf, timers.Keys))
  {
    var t := Do(b, ClearA);
    forall x | x in timers ensures t.ops[opOf[x]].stage == Leaving(Cleared) && t.ops[opOf[x]].handle == timers[x].handle {
      assert Entry(timers, opOf, b.ops, x);
    }
    forall i | i in b.ops && b.ops[i].stage.Armed? ensures i in OpsOf(opOf, timers.Keys) {
      assert i in opOf.Values;
    }
  }

  lemma DoomedOne(doomed: map<TimerId, TimerState>, ops: map<TimerId, nat>, t: Books, x: TimerId, b: Books)
    requires Doomed(doomed, ops, b.ops, t.ops) && x in doomed && Swept(b, t, OpsOf(ops, doomed.Keys))
    ensures x in ops && Can(t, ReleasePendingA(ops[x])) && t.ops[ops[x]].handle == doomed[x].handle
    ensures Can(Do(t, ReleasePendingA(ops[x])), ReleaseOutstandingA(ops[x]))
    ensures var v := Do(Do(t, ReleasePendingA(ops[x])), ReleaseOutstandingA(ops[x]));
            Doomed(doomed - {x}, ops, b.ops, v.ops) && Swept(b, v, OpsOf(ops, (doomed - {x}).Keys))
  {
    hide Do, Can;
    var i := ops[x];
    OutOne(t, i);
    var v := Do(Do(t, ReleasePendingA(i)), ReleaseOutstandingA(i));
    DoomedOut(doomed, ops, t, x, b, v);
  }

  lemma DoomedOut(doomed: map<TimerId, TimerState>, ops: map<TimerId, nat>, t: Books, x: TimerId, b: Books, v: Books)
    requires Doomed(doomed, ops, b.ops, t.ops) && x in doomed && Swept(b, t, OpsOf(ops, doomed.Keys))
    requires ops[x] in v.ops && v.ops == t.ops[ops[x] := v.ops[ops[x]]] && v.ops[ops[x]].stage == Gone(Cleared)
    ensures Doomed(doomed - {x}, ops, b.ops, v.ops) && Swept(b, v, OpsOf(ops, (doomed - {x}).Keys))
  {
    var i := ops[x];
    assert OpsOf(ops, (doomed - {x}).Keys) == OpsOf(ops, doomed.Keys) - {i};
  }

  lemma AfterPending(t: Books, i: nat)
    requires Can(t, ReleasePendingA(i))
    ensures Can(Do(t, ReleasePendingA(i)), ReleaseOutstandingA(i))
  {
  }

  lemma SmallerMap(m: map<TimerId, TimerState>, x: TimerId)
    requires x in m
    ensures |m - {x}| < |m|
  {
    assert (m - {x}).Keys == m.Keys - {x};
  }

  lemma NothingDoomed(ops: map<TimerId, nat>)
    ensures OpsOf(ops, {}) == {}
  {
  }

  lemma Around(start: nat, k: nat)
    ensures (Place(start, k, TIMER_IDS) + 1) % TIMER_IDS == Place(start, k + 1, TIMER_IDS) < TIMER_IDS
    ensures start < TIMER_IDS ==> Place(start, 0, TIMER_IDS) == start
  {
  }
}
