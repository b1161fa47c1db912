/**
 Reassembly of fragmented UDP datagrams from the client (section 7 of RFC 1928), as the
 relay does it: fragment 1 opens an assembly, a high bit marks the last fragment.
 */
module UdpFragments {
  import opened Bytes

  const MAX_PAYLOAD := 65535
  const MAX_ASSEMBLIES := 256

  /** The relay keys assemblies by the printed destination; printing is injective. */
  datatype Destination = Ip(addr: bytes, ipPort: u16) | Domain(name: bytes, domainPort: u16)

  datatype Assembly = Assembly(dest: Destination, parts: map<int, bytes>, haveLast: bool, lastNum: nat, total: int, updated: int)

  datatype Datagram = Datagram(dest: Destination, payload: bytes)

  type Table = map<Destination, Assembly>

  function SizeAt(parts: map<int, bytes>, i: int): nat {
    if i in parts then |parts[i]| else 0
  }

  /** Octets in parts 1 to `n`. */
  function SizeTo(parts: map<int, bytes>, n: nat): nat {
    if n == 0 then 0 else SizeTo(parts, n - 1) + SizeAt(parts, n)
  }

  /** Parts 1 to `n`, in number order. */
  function AssembleTo(parts: map<int, bytes>, n: nat): bytes
    requires forall i :: 1 <= i <= n ==> i in parts
  {
    if n == 0 then [] else AssembleTo(parts, n - 1) + parts[n]
  }

  predicate Complete(a: Assembly) {
    a.haveLast && forall i :: 1 <= i <= a.lastNum ==> i in a.parts
  }

  function Fresh(key: Destination, now: int): Assembly {
    Assembly(key, map[], false, 0, 0, now)
  }

  function Insert(a: Assembly, num: int, last: bool, payload: bytes, now: int): Assembly
    requires num >= 0
  {
    Assembly(a.dest, a.parts[num := payload], a.haveLast || last, if last then num else a.lastNum,
             a.total - SizeAt(a.parts, num) + |payload|, now)
  }

  predicate TooBig(a: Assembly, num: int, payload: bytes) {
    |payload| > MAX_PAYLOAD || a.total - SizeAt(a.parts, num) > MAX_PAYLOAD - |payload|
  }

  /** What one fragment does to the table, and the datagram that it completes, if any. */
  function Accept(t: Table, key: Destination, frag: byte, payload: bytes, now: int): (Table, Option<Datagram>) {
    var num, last := frag as int % 128, frag >= 128;
    if num == 0 then (t, None)
    else if num == 1 && key !in t && |t| >= MAX_ASSEMBLIES then (t, None)
    else if num != 1 && key !in t then (t, None)
    else
      var base := if num == 1 then Fresh(key, now) else t[key];
      if TooBig(base, num, payload) then (t - {key}, None)
      else
        var a := Insert(base, num, last, payload, now);
        if Complete(a) then (t - {key}, Some(Datagram(a.dest, AssembleTo(a.parts, a.lastNum))))
        else (t[key := a], None)
  }

  // ----- Byte accounting

  /** The stored total is the size of the stored parts, which are numbered 1 to 127. */
  ghost predicate Accounted(a: Assembly) {
    && (forall i :: i in a.parts ==> 1 <= i <= 127)
    && a.total == SizeTo(a.parts, 127) <= MAX_PAYLOAD
    && (a.haveLast ==> 1 <= a.lastNum <= 127)
  }

  ghost predicate Sound(t: Table) {
    && |t| <= MAX_ASSEMBLIES
    && forall k :: k in t ==> Accounted(t[k]) && t[k].dest == k
  }

  lemma {:induction false} SizeUpdate(parts: map<int, bytes>, num: int, payload: bytes, n: nat)
    requires num >= 1
    ensures SizeTo(parts[num := payload], n) == SizeTo(parts, n) + if num <= n then |payload| - SizeAt(parts, num) else 0
  {
    if n > 0 {
      SizeUpdate(parts, num, payload, n - 1);
    }
  }

  lemma {:induction false} SizeMonotone(parts: map<int, bytes>, m: nat, n: nat)
    requires m <= n
    ensures SizeTo(parts, m) <= SizeTo(parts, n)
  {
    if m < n {
      SizeMonotone(parts, m, n - 1);
    }
  }

  lemma {:induction false} SizeOfNone(n: nat)
    ensures SizeTo(map[], n) == 0
  {
    if n > 0 {
      SizeOfNone(n - 1);
    }
  }

  /** No part is larger than the total, so taking the old part away cannot underflow. */
  lemma PartWithin(a: Assembly, num: int)
    requires Accounted(a) && 1 <= num <= 127
    ensures SizeAt(a.parts, num) <= a.total
  {
    SizeMonotone(a.parts, num, 127);
  }

  lemma InsertAccounted(a: Assembly, num: int, last: bool, payload: bytes, now: int)
    requires Accounted(a) && 1 <= num <= 127 && !TooBig(a, num, payload)
    ensures Accounted(Insert(a, num, last, payload, now))
  {
    SizeUpdate(a.parts, num, payload, 127);
    PartWithin(a, num);
  }

  lemma FreshAccounted(key: Destination, now: int)
    ensures Accounted(Fresh(key, now))
  {
    SizeOfNone(127);
  }

  lemma TableSizes(t: Table, key: Destination, a: Assembly)
    ensures |t - {key}| <= |t|
    ensures key in t ==> |t[key := a]| == |t|
    ensures key !in t ==> |t[key := a]| == |t| + 1
  {
    assert (t - {key}).Keys == t.Keys - {key};
    assert t[key := a].Keys == t.Keys + {key};
  }

  /** Every fragment, good or bad, keeps the table bounded and its totals exact. */
  lemma AcceptSound(t: Table, key: Destination, frag: byte, payload: bytes, now: int)
    requires Sound(t)
    ensures Sound(Accept(t, key, frag, payload, now).0)
    ensures var out := Accept(t, key, frag, payload, now).1;
            out.Some? ==> out.value.dest == key && |out.value.payload| <= MAX_PAYLOAD
  {
    var num, last := frag as int % 128, frag >= 128;
    if num != 0 && (key in t || (num == 1 && |t| < MAX_ASSEMBLIES)) {
      FreshAccounted(key, now);
      var base := if num == 1 then Fresh(key, now) else t[key];
      TableSizes(t, key, Insert(base, num, last, payload, now));
      if !TooBig(base, num, payload) {
        var a := Insert(base, num, last, payload, now);
        InsertAccounted(base, num, last, payload, now);
        if Complete(a) {
          SizeMonotone(a.parts, a.lastNum, 127);
          AssembledSize(a.parts, a.lastNum);
        }
      }
    }
  }

  /**
   Which fragments are ignored, and which throw their assembly away: number zero, one that does not
   start an assembly and finds none, and one that would start the 257th are ignored; of the others
   exactly those that take the parts together over 65,535 octets end the assembly without a datagram.
   */
  lemma DropsExactly(t: Table, key: Destination, frag: byte, payload: bytes, now: int)
    requires Sound(t)
    ensures
      var num, r := frag as int % 128, Accept(t, key, frag, payload, now);
      if num == 0 || (key !in t && (num != 1 || |t| >= 256)) then r == (t, None)
      else
        var parts := (if num == 1 then map[] else t[key].parts)[num := payload];
        && (key !in r.0 && r.1.None? <==> SizeTo(parts, 127) > 65_535)
        && (forall k :: k != key ==> (k in r.0 <==> k in t) && (k in t ==> r.0[k] == t[k]))
  {
    var num, last := frag as int % 128, frag >= 128;
    if num != 0 && (key in t || (num == 1 && |t| < MAX_ASSEMBLIES)) {
      FreshAccounted(key, now);
      var base := if num == 1 then Fresh(key, now) else t[key];
      SizeUpdate(base.parts, num, payload, 127);
      PartWithin(base, num);
    }
  }

  lemma {:induction false} AssembledSize(parts: map<int, bytes>, n: nat)
    requires forall i :: 1 <= i <= n ==> i in parts
    ensures |AssembleTo(parts, n)| == SizeTo(parts, n)
  {
    if n > 0 {
      AssembledSize(parts, n - 1);
    }
  }

  // ----- The code

  class Reassembler {
    var assemblies: Table

    ghost predicate Valid()
      reads this
    {
      Sound(assemblies)
    }

    constructor ()
      ensures Valid() && assemblies == map[]
    {
      assemblies := map[];
    }

    /** The scan for a missing part; the running size can never pass the limit again. */
    method AllPresent(a: Assembly) returns (ok: bool)
      requires Accounted(a) && a.haveLast
      ensures ok <==> Complete(a)
    {
      var total := 0;
      var i: byte := 1;
      while i <= a.lastNum
        invariant 1 <= i <= a.lastNum + 1
        invariant forall j :: 1 <= j < i ==> j in a.parts
        invariant total == SizeTo(a.parts, i - 1)
        decreases a.lastNum - i
      {
        if i !in a.parts { return false; }
        total := total + |a.parts[i]|;
        SizeMonotone(a.parts, i, 127);
        assert total <= MAX_PAYLOAD;
        i := i + 1;
      }
      ok := true;
    }

    method Join(a: Assembly) returns (out: bytes)
      requires Accounted(a) && Complete(a)
      ensures out == AssembleTo(a.parts, a.lastNum)
    {
      out := [];
      var i: byte := 1;
      while i <= a.lastNum
        invariant 1 <= i <= a.lastNum + 1
        invariant out == AssembleTo(a.parts, i - 1)
        decreases a.lastNum - i
      {
        out := out + a.parts[i];
        i := i + 1;
      }
    }

    method ProcessFragment(frag: byte, key: Destination, payload: bytes, now: int) returns (out: Option<Datagram>)
      requires Valid()
      modifies this
      ensures Valid()
      ensures (assemblies, out) == Accept(old(assemblies), key, frag, payload, now)
    {
      AcceptSound(assemblies, key, frag, payload, now);
      var num: int := frag as int % 128;
      var last := frag >= 128;
      if num == 0 { return None; }
      var base: Assembly;
      if num == 1 {
        if key !in assemblies && |assemblies| >= MAX_ASSEMBLIES { return None; }
        base := Fresh(key, now);
        FreshAccounted(key, now);
      } else {
        if key !in assemblies { return None; }
        base := assemblies[key];
      }
      out := Store(base, num, last, key, payload, now);
    }

    /** The part of the handler after the assembly has been found or opened. */
    method Store(base: Assembly, num: int, last: bool, key: Destination, payload: bytes, now: int) returns (out: Option<Datagram>)
      requires Accounted(base) && 1 <= num <= 127
      modifies this
      ensures TooBig(base, num, payload) ==> assemblies == old(assemblies) - {key} && out.None?
      ensures !TooBig(base, num, payload) ==>
                var a := Insert(base, num, last, payload, now);
                if Complete(a)
                then assemblies == old(assemblies) - {key} && out == Some(Datagram(a.dest, AssembleTo(a.parts, a.lastNum)))
                else assemblies == old(assemblies)[key := a] && out.None?
    {
      var oldSize := if num in base.parts then |base.parts[num]| else 0;
      PartWithin(base, num);
      assert base.total - oldSize >= 0;
      if |payload| > MAX_PAYLOAD || base.total - oldSize > MAX_PAYLOAD - |payload| {
        assemblies := assemblies - {key};
        return None;
      }
      InsertAccounted(base, num, last, payload, now);
      var a := base.(parts := base.parts[num := payload], total := base.total - oldSize + |payload|, updated := now);
      if last { a := a.(haveLast := true, lastNum := num); }
      assemblies := assemblies[key := a];
      if !a.haveLast { return None; }
      var ok := AllPresent(a);
      if !ok { return None; }
      var joined := Join(a);
      assert old(assemblies)[key := a] - {key} == old(assemblies) - {key};
      assemblies := assemblies - {key};
      out := Some(Datagram(a.dest, joined));
    }
  }

  // ----- Whole runs

  /** A fragment arrives, or the periodic sweep drops assemblies that have been idle. */
  datatype Event = Arrive(key: Destination, frag: byte, payload: bytes, now: int) | Sweep(dropped: set<Destination>)

  function Step(t: Table, e: Event): (Table, seq<Datagram>) {
    match e
    case Arrive(key, frag, payload, now) =>
      var r := Accept(t, key, frag, payload, now);
      (r.0, if r.1.Some? then [r.1.value] else [])
    case Sweep(dropped) => (t - dropped, [])
  }

  function Run(t: Table, es: seq<Event>): (Table, seq<Datagram>)
    decreases |es|
  {
    if es == [] then (t, [])
    else
      var s := Step(t, es[0]);
      var r := Run(s.0, es[1..]);
      (r.0, s.1 + r.1)
  }

  /** The datagrams for one destination. */
  function For(ds: seq<Datagram>, key: Destination): seq<Datagram> {
    if ds == [] then []
    else (if ds[0].dest == key then [ds[0]] else []) + For(ds[1..], key)
  }

  lemma {:induction false} ForConcat(a: seq<Datagram>, b: seq<Datagram>, key: Destination)
    ensures For(a + b, key) == For(a, key) + For(b, key)
  {
    if a == [] {
      assert a + b == b;
    } else {
      assert (a + b)[1..] == a[1..] + b && (a + b)[0] == a[0];
      ForConcat(a[1..], b, key);
      var head := if a[0].dest == key then [a[0]] else [];
      assert head + (For(a[1..], key) + For(b, key)) == (head + For(a[1..], key)) + For(b, key);
    }
  }

  lemma {:induction false} RunSound(t: Table, es: seq<Event>)
    requires Sound(t)
    ensures Sound(Run(t, es).0)
    decreases |es|
  {
    if es != [] {
      StepSound(t, es[0]);
      RunSound(Step(t, es[0]).0, es[1..]);
    }
  }

  lemma StepSound(t: Table, e: Event)
    requires Sound(t)
    ensures Sound(Step(t, e).0)
  {
    match e
    case Arrive(key, frag, payload, now) => AcceptSound(t, key, frag, payload, now);
    case Sweep(dropped) =>
      assert (t - dropped).Keys == t.Keys - dropped;
      assert t.Keys == (t.Keys - dropped) + (t.Keys * dropped);
  }

  /** An event that leaves the assembly of `key` alone. */
  ghost predicate Elsewhere(e: Event, key: Destination) {
    match e
    case Arrive(k, _, _, _) => k != key
    case Sweep(dropped) => key !in dropped
  }

  lemma ElsewhereFrame(t: Table, e: Event, key: Destination)
    requires Sound(t) && Elsewhere(e, key)
    ensures (key in Step(t, e).0) == (key in t)
    ensures key in t ==> Step(t, e).0[key] == t[key]
    ensures For(Step(t, e).1, key) == []
  {
    if e.Arrive? {
      AcceptSound(t, e.key, e.frag, e.payload, e.now);
    }
  }

  /** The fragments of one datagram, by number from 1. */
  ghost predicate Fragments(full: map<int, bytes>, n: nat) {
    && 1 <= n <= 127
    && (forall i :: i in full <==> 1 <= i <= n)
    && SizeTo(full, n) <= MAX_PAYLOAD
  }

  /** Fragment `i` of the datagram arrives for `key`, the last one flagged as such. */
  ghost predicate IsFragment(e: Event, key: Destination, full: map<int, bytes>, n: nat, i: int) {
    && e.Arrive? && e.key == key
    && 1 <= i <= n && i in full
    && e.frag as int == (if i == n then i + 128 else i)
    && e.payload == full[i]
  }

  ghost predicate LaterFragment(e: Event, key: Destination, full: map<int, bytes>, n: nat) {
    exists i :: 2 <= i <= n && IsFragment(e, key, full, n, i)
  }

  /** The assembly holds exactly the fragments of `full` with numbers in `got`. */
  ghost predicate Holds(a: Assembly, key: Destination, full: map<int, bytes>, n: nat, got: set<int>) {
    && Accounted(a) && a.dest == key
    && (forall i :: i in a.parts <==> i in got)
    && (forall i :: i in got ==> i in full && a.parts[i] == full[i])
    && a.haveLast == (n in got)
    && (a.haveLast ==> a.lastNum == n)
  }

  ghost predicate AllIn(got: set<int>, n: nat) {
    forall i :: 1 <= i <= n ==> i in got
  }

  lemma {:induction false} SubsetSize(parts: map<int, bytes>, full: map<int, bytes>, n: nat)
    requires forall i :: i in parts ==> i in full && parts[i] == full[i]
    ensures SizeTo(parts, n) <= SizeTo(full, n)
  {
    if n > 0 {
      SubsetSize(parts, full, n - 1);
    }
  }

  lemma {:induction false} NoMoreParts(full: map<int, bytes>, m: nat, n: nat)
    requires m <= n && forall i :: i in full ==> i <= m
    ensures SizeTo(full, n) == SizeTo(full, m)
  {
    if m < n {
      NoMoreParts(full, m, n - 1);
    }
  }

  lemma {:induction false} SameAssembled(a: map<int, bytes>, b: map<int, bytes>, n: nat)
    requires forall i :: 1 <= i <= n ==> i in a && i in b && a[i] == b[i]
    ensures AssembleTo(a, n) == AssembleTo(b, n)
  {
    if n > 0 {
      SameAssembled(a, b, n - 1);
    }
  }

  /** A fragment of the datagram is never refused for its size. */
  lemma NeverTooBig(a: Assembly, key: Destination, full: map<int, bytes>, n: nat, got: set<int>, i: int)
    requires Fragments(full, n) && Holds(a, key, full, n, got) && i in full
    ensures !TooBig(a, i, full[i])
  {
    SizeUpdate(a.parts, i, full[i], 127);
    SubsetSize(a.parts[i := full[i]], full, 127);
    NoMoreParts(full, n, 127);
    SizeMonotone(full, i, 127);
  }

  lemma Gather(a: Assembly, key: Destination, full: map<int, bytes>, n: nat, got: set<int>, i: int, now: int)
    requires Fragments(full, n) && Holds(a, key, full, n, got) && i in full
    ensures Holds(Insert(a, i, i == n, full[i], now), key, full, n, got + {i})
    ensures Complete(Insert(a, i, i == n, full[i], now)) <==> AllIn(got + {i}, n)
  {
    NeverTooBig(a, key, full, n, got, i);
    InsertAccounted(a, i, i == n, full[i], now);
    var b := Insert(a, i, i == n, full[i], now);
  }

  /** One more fragment of an open assembly: it is kept, or it completes the datagram. */
  lemma GatherStep(t: Table, e: Event, key: Destination, full: map<int, bytes>, n: nat, got: set<int>, i: int)
    requires Fragments(full, n) && key in t && Holds(t[key], key, full, n, got)
    requires 2 <= i <= n && IsFragment(e, key, full, n, i)
    ensures AllIn(got + {i}, n) ==> key !in Step(t, e).0 && Step(t, e).1 == [Datagram(key, AssembleTo(full, n))]
    ensures !AllIn(got + {i}, n) ==>
              key in Step(t, e).0 && Holds(Step(t, e).0[key], key, full, n, got + {i}) && Step(t, e).1 == []
  {
    NeverTooBig(t[key], key, full, n, got, i);
    Gather(t[key], key, full, n, got, i, e.now);
    var b := Insert(t[key], i, i == n, full[i], e.now);
    if Complete(b) {
      SameAssembled(b.parts, full, n);
    }
  }

  /** Fragment 1 opens the assembly afresh, whatever was there. */
  lemma OpenStep(t: Table, e: Event, key: Destination, full: map<int, bytes>, n: nat)
    requires Fragments(full, n) && IsFragment(e, key, full, n, 1)
    requires key in t || |t| < MAX_ASSEMBLIES
    ensures n == 1 ==> key !in Step(t, e).0 && Step(t, e).1 == [Datagram(key, AssembleTo(full, n))]
    ensures n > 1 ==> key in Step(t, e).0 && Holds(Step(t, e).0[key], key, full, n, {1}) && Step(t, e).1 == []
  {
    var a := Fresh(key, e.now);
    FreshAccounted(key, e.now);
    assert {} + {1} == {1};
    NeverTooBig(a, key, full, n, {}, 1);
    Gather(a, key, full, n, {}, 1, e.now);
    var b := Insert(a, 1, 1 == n, full[1], e.now);
    assert !AllIn({1}, n) <==> n > 1 by { if n > 1 { assert 2 !in {1}; } }
    if Complete(b) {
      SameAssembled(b.parts, full, n);
    }
  }

  /** A run in which `key` receives only later fragments of the datagram. */
  ghost predicate Continues(es: seq<Event>, key: Destination, full: map<int, bytes>, n: nat) {
    forall e :: e in es ==> Elsewhere(e, key) || LaterFragment(e, key, full, n)
  }

  ghost predicate Arrives(es: seq<Event>, key: Destination, full: map<int, bytes>, n: nat, i: int) {
    exists e :: e in es && IsFragment(e, key, full, n, i)
  }

  /** Fragments that come after the datagram was completed are orphans. */
  lemma {:induction false} AfterDone(t: Table, es: seq<Event>, key: Destination, full: map<int, bytes>, n: nat)
    requires Sound(t) && Fragments(full, n) && Continues(es, key, full, n) && key !in t
    ensures For(Run(t, es).1, key) == []
    decreases |es|
  {
    if es != [] {
      var s := Step(t, es[0]);
      StepSound(t, es[0]);
      if Elsewhere(es[0], key) {
        ElsewhereFrame(t, es[0], key);
      }
      AfterDone(s.0, es[1..], key, full, n);
      ForConcat(s.1, Run(s.0, es[1..]).1, key);
    }
  }

  lemma HeadArrival(es: seq<Event>, key: Destination, full: map<int, bytes>, n: nat, i: int)
    requires es != [] && Arrives(es, key, full, n, i)
    ensures IsFragment(es[0], key, full, n, i) || Arrives(es[1..], key, full, n, i)
  {
    var e :| e in es && IsFragment(e, key, full, n, i);
    assert es == [es[0]] + es[1..];
  }

  /** What is still missing from an open assembly arrives in any order, possibly repeated. */
  lemma NoneArrives(key: Destination, full: map<int, bytes>, n: nat)
    ensures forall i :: !Arrives([], key, full, n, i)
  {
  }

  lemma {:induction false} FromOpen(t: Table, es: seq<Event>, key: Destination, full: map<int, bytes>, n: nat, got: set<int>)
    requires Sound(t) && Fragments(full, n) && Continues(es, key, full, n)
    requires key in t && Holds(t[key], key, full, n, got)
    requires 1 in got && !AllIn(got, n)
    requires forall i :: 2 <= i <= n ==> i in got || Arrives(es, key, full, n, i)
    ensures For(Run(t, es).1, key) == [Datagram(key, AssembleTo(full, n))]
    decreases |es|
  {
    hide Holds, IsFragment, Step;
    if es == [] {
      NoneArrives(key, full, n);
      assert false;
    } else {
      var s := Step(t, es[0]);
      StepSound(t, es[0]);
      forall i | 2 <= i <= n && i !in got ensures IsFragment(es[0], key, full, n, i) || Arrives(es[1..], key, full, n, i) {
        HeadArrival(es, key, full, n, i);
      }
      ForConcat(s.1, Run(s.0, es[1..]).1, key);
      if Elsewhere(es[0], key) {
        NotAFragment(es[0], key, full, n);
        ElsewhereFrame(t, es[0], key);
        FromOpen(s.0, es[1..], key, full, n, got);
      } else {
        var i :| 2 <= i <= n && IsFragment(es[0], key, full, n, i);
        OneNumber(es[0], key, full, n, i);
        GatherStep(t, es[0], key, full, n, got, i);
        if AllIn(got + {i}, n) {
          AfterDone(s.0, es[1..], key, full, n);
          assert For(s.1, key) == [Datagram(key, AssembleTo(full, n))] + For([], key);
        } else {
          FromOpen(s.0, es[1..], key, full, n, got + {i});
        }
      }
    }
  }

  lemma NotAFragment(e: Event, key: Destination, full: map<int, bytes>, n: nat)
    requires Elsewhere(e, key)
    ensures forall i :: !IsFragment(e, key, full, n, i)
  {
  }

  lemma OneNumber(e: Event, key: Destination, full: map<int, bytes>, n: nat, i: int)
    requires IsFragment(e, key, full, n, i) && n <= 127
    ensures forall j :: IsFragment(e, key, full, n, j) ==> j == i
  {
  }

  lemma {:induction false} RunElsewhere(t: Table, es: seq<Event>, key: Destination)
    requires Sound(t) && forall e :: e in es ==> Elsewhere(e, key)
    ensures For(Run(t, es).1, key) == []
    decreases |es|
  {
    if es != [] {
      var s := Step(t, es[0]);
      StepSound(t, es[0]);
      ElsewhereFrame(t, es[0], key);
      RunElsewhere(s.0, es[1..], key);
      ForConcat(s.1, Run(s.0, es[1..]).1, key);
    }
  }

  lemma {:induction false} RunConcat(t: Table, a: seq<Event>, b: seq<Event>)
    ensures Run(t, a + b).0 == Run(Run(t, a).0, b).0
    ensures Run(t, a + b).1 == Run(t, a).1 + Run(Run(t, a).0, b).1
    decreases |a|
  {
    hide Step;
    if a == [] {
      assert a + b == b;
    } else {
      assert (a + b)[1..] == a[1..] + b;
      RunConcat(Step(t, a[0]).0, a[1..], b);
    }
  }

  /**
   Fragment 1 first, the others in any order and any number of times, other destinations and
   sweeps in between: exactly one datagram comes out, the parts in number order.
   */
  lemma Reassembled(t: Table, before: seq<Event>, first: Event, after: seq<Event>,
                    key: Destination, full: map<int, bytes>, n: nat)
    requires Sound(t) && Fragments(full, n)
    requires forall e :: e in before ==> Elsewhere(e, key)
    requires key in Run(t, before).0 || |Run(t, before).0| < MAX_ASSEMBLIES
    requires IsFragment(first, key, full, n, 1) && Continues(after, key, full, n)
    requires forall i :: 2 <= i <= n ==> Arrives(after, key, full, n, i)
    ensures For(Run(t, before + ([first] + after)).1, key) == [Datagram(key, AssembleTo(full, n))]
  {
    hide Holds, IsFragment, Step, Fragments, Sound, Run;
    RunElsewhere(t, before, key);
    RunSound(t, before);
    RunConcat(t, before, [first] + after);
    var t1 := Run(t, before).0;
    ForConcat(Run(t, before).1, Run(t1, [first] + after).1, key);
    FromFirst(t1, first, after, key, full, n);
  }

  lemma FromFirst(t: Table, first: Event, after: seq<Event>, key: Destination, full: map<int, bytes>, n: nat)
    requires Sound(t) && Fragments(full, n)
    requires key in t || |t| < MAX_ASSEMBLIES
    requires IsFragment(first, key, full, n, 1) && Continues(after, key, full, n)
    requires forall i :: 2 <= i <= n ==> Arrives(after, key, full, n, i)
    ensures For(Run(t, [first] + after).1, key) == [Datagram(key, AssembleTo(full, n))]
  {
    hide Holds, IsFragment, Step, Sound;
    var s := Step(t, first);
    StepSound(t, first);
    OpenStep(t, first, key, full, n);
    assert ([first] + after)[1..] == after;
    ForConcat(s.1, Run(s.0, after).1, key);
    if n == 1 {
      AfterDone(s.0, after, key, full, n);
      assert For(s.1, key) == [Datagram(key, AssembleTo(full, n))] + For([], key);
    } else {
      assert 2 !in {1};
      FromOpen(s.0, after, key, full, n, {1});
    }
  }

  /** The parts joined by number are the parts concatenated in order. */
  lemma {:induction false} AssembledIsConcat(full: map<int, bytes>, payloads: seq<bytes>, n: nat)
    requires n <= |payloads| && forall i :: 1 <= i <= n ==> i in full && full[i] == payloads[i - 1]
    ensures AssembleTo(full, n) == Concat(payloads[..n])
  {
    if n > 0 {
      AssembledIsConcat(full, payloads, n - 1);
      assert payloads[..n] == payloads[..n - 1] + [payloads[n - 1]];
      ConcatSnoc(payloads[..n - 1], payloads[n - 1]);
    }
  }
}
