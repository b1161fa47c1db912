/**
 The bounded send pump that the UDP relay and the DNS resolver both have: a queue of
 datagrams, at most 16 overlapped sends in flight, and a completion that pumps again.
 */
module SendPump {
  const MAX_IN_FLIGHT := 16

  /** A datagram that has been handed to the socket; `id` stands for its overlapped context. */
  datatype InFlight<D> = InFlight(id: nat, data: D)

  /** Sends were added behind those in flight, each a new one and the next datagram of the line. */
  ghost predicate Grown<D>(f: seq<InFlight<D>>, p: seq<D>, id: nat, g: seq<InFlight<D>>, q: seq<D>) {
    && f <= g && p <= q && |g| - |f| == |q| - |p|
    && forall i :: |f| <= i < |g| ==> g[i].id >= id && g[i].data == q[|p| - |f| + i]
  }

  lemma GrownNone<D>(f: seq<InFlight<D>>, p: seq<D>, id: nat)
    ensures Grown(f, p, id, f, p)
  {
  }

  lemma GrownOne<D>(f: seq<InFlight<D>>, p: seq<D>, id: nat, g: seq<InFlight<D>>, q: seq<D>, x: InFlight<D>)
    requires Grown(f, p, id, g, q) && x.id >= id
    ensures Grown(f, p, id, g + [x], q + [x.data])
  {
  }

  // ----- A port that takes whatever can be taken

  /** How many datagrams go out at once: up to the free room, and up to the first empty one, which no post takes. */
  function Runs<D>(pending: seq<D>, room: nat, empty: D -> bool): (n: nat)
    ensures n <= |pending| && n <= room
  {
    if pending == [] || room == 0 || empty(pending[0]) then 0 else 1 + Runs(pending[1..], room - 1, empty)
  }

  lemma RunsNext<D>(pending: seq<D>, room: nat, empty: D -> bool)
    requires pending != [] && room > 0
    ensures Runs(pending, room, empty) == if empty(pending[0]) then 0 else 1 + Runs(pending[1..], room - 1, empty)
  {
  }

  lemma RunsEnds<D>(pending: seq<D>, room: nat, empty: D -> bool)
    ensures pending == [] || room == 0 ==> Runs(pending, room, empty) == 0
  {
  }

  datatype Line<D> = Line(pending: seq<D>, flying: nat)

  function Pumped<D>(l: Line<D>, empty: D -> bool): Line<D> {
    var n := Runs(l.pending, if l.flying < MAX_IN_FLIGHT then MAX_IN_FLIGHT - l.flying else 0, empty);
    Line(l.pending[n..], l.flying + n)
  }

  /** The pump after `k` completions, as far as there are sends in flight to complete. */
  function After<D>(l: Line<D>, empty: D -> bool, k: nat): Line<D> {
    if k == 0 then Pumped(l, empty)
    else
      var m := After(l, empty, k - 1);
      if m.flying == 0 then m else Pumped(m.(flying := m.flying - 1), empty)
  }

  ghost predicate NoneEmpty<D>(pending: seq<D>, empty: D -> bool) {
    forall i :: 0 <= i < |pending| ==> !empty(pending[i])
  }

  lemma {:induction false} RunsFar<D>(pending: seq<D>, room: nat, empty: D -> bool)
    ensures forall i :: 0 <= i < Runs(pending, room, empty) ==> !empty(pending[i])
    ensures NoneEmpty(pending, empty) ==> Runs(pending, room, empty) == if |pending| < room then |pending| else room
    decreases pending
  {
    if pending != [] && room != 0 && !empty(pending[0]) {
      RunsFar(pending[1..], room - 1, empty);
      var n := Runs(pending, room, empty);
      forall i | 0 <= i < n ensures !empty(pending[i]) {
        assert i > 0 ==> pending[i] == pending[1..][i - 1];
      }
    }
  }

  /** What is still pending is a suffix, and no empty datagram has left. */
  ghost predicate Suffix<D>(l: Line<D>, m: Line<D>, empty: D -> bool) {
    && |m.pending| <= |l.pending| && m.pending == l.pending[|l.pending| - |m.pending|..]
    && forall i :: 0 <= i < |l.pending| - |m.pending| ==> !empty(l.pending[i])
  }

  lemma {:induction false} AfterSuffix<D>(l: Line<D>, empty: D -> bool, k: nat)
    ensures Suffix(l, After(l, empty, k), empty)
  {
    hide Suffix, Pumped;
    if k == 0 {
      SuffixSame(l, empty);
      PumpedSuffix(l, l, empty);
    } else {
      AfterSuffix(l, empty, k - 1);
      var m := After(l, empty, k - 1);
      if m.flying > 0 {
        SuffixFlying(l, m, empty);
        PumpedSuffix(l, m.(flying := m.flying - 1), empty);
      }
    }
  }

  lemma SuffixSame<D>(l: Line<D>, empty: D -> bool)
    ensures Suffix(l, l, empty)
  {
  }

  lemma SuffixFlying<D>(l: Line<D>, m: Line<D>, empty: D -> bool)
    requires Suffix(l, m, empty) && m.flying > 0
    ensures Suffix(l, m.(flying := m.flying - 1), empty)
  {
  }

  lemma PumpedSuffix<D>(l: Line<D>, m: Line<D>, empty: D -> bool)
    requires Suffix(l, m, empty)
    ensures Suffix(l, Pumped(m, empty), empty)
  {
    var room := if m.flying < MAX_IN_FLIGHT then MAX_IN_FLIGHT - m.flying else 0;
    var n, at := Runs(m.pending, room, empty), |l.pending| - |m.pending|;
    RunsFar(m.pending, room, empty);
    hide Runs;
    forall i | 0 <= i < at + n ensures !empty(l.pending[i]) {
      assert i >= at ==> l.pending[i] == m.pending[i - at];
    }
  }

  /** While datagrams are pending, none of them empty, all sixteen sends are in flight; each completion lets one more out. */
  ghost predicate Flows<D>(m: Line<D>, empty: D -> bool, most: nat) {
    && NoneEmpty(m.pending, empty) && m.flying <= MAX_IN_FLIGHT
    && (m.pending != [] ==> m.flying == MAX_IN_FLIGHT) && |m.pending| <= most
  }

  lemma {:induction false} AfterShrinks<D>(l: Line<D>, empty: D -> bool, k: nat)
    requires NoneEmpty(l.pending, empty) && l.flying <= MAX_IN_FLIGHT
    ensures Flows(After(l, empty, k), empty, if k < |l.pending| then |l.pending| - k else 0)
  {
    hide Flows, Pumped, NoneEmpty;
    if k == 0 {
      PumpedFlows(l, empty);
    } else {
      AfterShrinks(l, empty, k - 1);
      CompletedFlows(After(l, empty, k - 1), empty, if k - 1 < |l.pending| then |l.pending| - (k - 1) else 0);
    }
  }

  lemma PumpedFlows<D>(l: Line<D>, empty: D -> bool)
    requires NoneEmpty(l.pending, empty) && l.flying <= MAX_IN_FLIGHT
    ensures Flows(Pumped(l, empty), empty, |l.pending|)
  {
    PumpedShrinks(l, empty);
    hide Pumped;
  }

  lemma CompletedFlows<D>(m: Line<D>, empty: D -> bool, most: nat)
    requires Flows(m, empty, most)
    ensures var u := if m.flying == 0 then m else Pumped(m.(flying := m.flying - 1), empty);
            Flows(u, empty, if most > 0 then most - 1 else 0)
  {
    hide Pumped;
    if m.flying > 0 {
      PumpedShrinks(m.(flying := m.flying - 1), empty);
    }
  }

  lemma PumpedShrinks<D>(l: Line<D>, empty: D -> bool)
    requires NoneEmpty(l.pending, empty) && l.flying <= MAX_IN_FLIGHT
    ensures var m := Pumped(l, empty);
            && NoneEmpty(m.pending, empty) && m.flying <= MAX_IN_FLIGHT && (m.pending != [] ==> m.flying == MAX_IN_FLIGHT)
            && |m.pending| == (if |l.pending| + l.flying <= MAX_IN_FLIGHT then 0 else |l.pending| + l.flying - MAX_IN_FLIGHT)
  {
    RunsFar(l.pending, MAX_IN_FLIGHT - l.flying, empty);
    hide Runs;
  }

  /** With a port that takes whatever can be taken, the queue drains exactly when no datagram in it is empty. */
  lemma DrainsExactly<D>(l: Line<D>, empty: D -> bool)
    requires l.flying <= MAX_IN_FLIGHT
    ensures (exists k: nat :: After(l, empty, k).pending == []) <==> NoneEmpty(l.pending, empty)
  {
    hide After;
    if NoneEmpty(l.pending, empty) {
      AfterShrinks(l, empty, |l.pending|);
      assert After(l, empty, |l.pending|).pending == [];
    }
    forall k: nat | After(l, empty, k).pending == [] ensures NoneEmpty(l.pending, empty) {
      AfterSuffix(l, empty, k);
    }
  }

  class Pump<D> {
    const maxPending: nat
    /** Datagrams without octets. */
    const empty: D -> bool
    var pending: seq<D>
    var inFlight: seq<InFlight<D>>
    var sendsInFlight: nat
    /** The socket is valid and the owner has not been stopped. */
    var open: bool
    var nextId: nat

    /** Every datagram accepted and not discarded by Stop, and every datagram posted, in order. */
    ghost var accepted: seq<D>
    ghost var posted: seq<D>

    ghost predicate Valid()
      reads this
    {
      && sendsInFlight == |inFlight| <= MAX_IN_FLIGHT
      && |pending| <= maxPending
      && accepted == posted + pending
      && (forall i :: 0 <= i < |posted| ==> !empty(posted[i]))
      && (forall i :: 0 <= i < |inFlight| ==> inFlight[i].id < nextId)
      && (forall i, j :: 0 <= i < j < |inFlight| ==> inFlight[i].id != inFlight[j].id)
    }

    constructor (maxPending: nat, empty: D -> bool)
      ensures Valid() && this.maxPending == maxPending && this.empty == empty && open && accepted == [] && posted == []
    {
      this.maxPending, this.empty := maxPending, empty;
      pending, inFlight, sendsInFlight, open, nextId := [], [], 0, true, 0;
      accepted, posted := [], [];
    }

    /**
     Posts from the front of the queue until a stop reason holds. `posts(k)` is the outcome of
     the k-th attempt, but an empty datagram is always refused. A failed datagram goes back to the
     front: order is never changed, nothing is lost and nothing is posted twice. A port that takes
     whatever can be taken leaves what Runs says.
     */
    method PumpSend(posts: nat -> bool) returns (failed: bool)
      requires Valid()
      modifies this`pending, this`inFlight, this`sendsInFlight, this`nextId, this`posted
      ensures Valid()
      ensures Grown(old(inFlight), old(posted), old(nextId), inFlight, posted)
      ensures failed || pending == [] || sendsInFlight == MAX_IN_FLIGHT || !open
      ensures !open ==> !failed && pending == old(pending) && inFlight == old(inFlight) && posted == old(posted)
      ensures open && (forall k :: posts(k)) ==> pending == old(pending)[Runs(old(pending), MAX_IN_FLIGHT - old(sendsInFlight), empty)..]
    {
      hide Runs, Grown;
      var attempt := 0;
      failed := false;
      GrownNone(inFlight, posted, nextId);
      RunsEnds(pending, MAX_IN_FLIGHT - sendsInFlight, empty);
      while sendsInFlight < MAX_IN_FLIGHT && pending != [] && open
        invariant Valid() && !failed
        invariant Grown(old(inFlight), old(posted), old(nextId), inFlight, posted)
        invariant nextId >= old(nextId)
        invariant !open ==> pending == old(pending) && inFlight == old(inFlight) && posted == old(posted)
        invariant attempt <= |old(pending)| && pending == old(pending)[attempt..]
        invariant pending == [] || sendsInFlight == MAX_IN_FLIGHT ==> Runs(pending, MAX_IN_FLIGHT - sendsInFlight, empty) == 0
        invariant Runs(old(pending), MAX_IN_FLIGHT - old(sendsInFlight), empty) == attempt + Runs(pending, MAX_IN_FLIGHT - sendsInFlight, empty)
        decreases |pending|
      {
        RunsNext(pending, MAX_IN_FLIGHT - sendsInFlight, empty);
        GrownOne(old(inFlight), old(posted), old(nextId), inFlight, posted, InFlight(nextId, pending[0]));
        var taken := PostFront(posts(attempt));
        RunsEnds(pending, MAX_IN_FLIGHT - sendsInFlight, empty);
        if !taken {
          return true;
        }
        attempt := attempt + 1;
      }
    }

    /** The datagram at the front is posted, or goes back to the front. */
    method PostFront(ok: bool) returns (taken: bool)
      requires Valid() && pending != [] && sendsInFlight < MAX_IN_FLIGHT
      modifies this`pending, this`inFlight, this`sendsInFlight, this`nextId, this`posted
      ensures Valid() && taken == (ok && !empty(old(pending)[0]))
      ensures taken ==> pending == old(pending)[1..] && posted == old(posted) + [old(pending)[0]]
      ensures taken ==> inFlight == old(inFlight) + [InFlight(old(nextId), old(pending)[0])] && nextId == old(nextId) + 1
      ensures !taken ==> pending == old(pending) && posted == old(posted) && inFlight == old(inFlight) && nextId == old(nextId)
    {
      var out := pending[0];
      pending := pending[1..];
      if empty(out) || !ok {
        pending := [out] + pending;
        return false;
      }
      inFlight := inFlight + [InFlight(nextId, out)];
      nextId := nextId + 1;
      sendsInFlight := sendsInFlight + 1;
      posted := posted + [out];
      taken := true;
    }

    /** Nothing behind an empty datagram is ever posted, whatever the port does and whatever is queued or completed. */
    lemma NothingPasses(j: nat)
      requires Valid() && j < |accepted| && empty(accepted[j])
      ensures |posted| <= j
    {
      assert accepted[..|posted|] == posted;
    }

    /** Accepts a datagram unless the queue is full, then pumps. */
    method Enqueue(d: D, posts: nat -> bool) returns (taken: bool)
      requires Valid()
      modifies this`pending, this`inFlight, this`sendsInFlight, this`nextId, this`posted, this`accepted
      ensures Valid()
      ensures taken == (|old(pending)| < maxPending)
      ensures accepted == if taken then old(accepted) + [d] else old(accepted)
      ensures old(posted) <= posted
      ensures taken && open && (forall k :: posts(k)) ==>
                pending == Pumped(Line(old(pending) + [d], old(sendsInFlight)), empty).pending
      ensures !taken ==> pending == old(pending) && inFlight == old(inFlight) && posted == old(posted)
      ensures taken && !open ==> pending == old(pending) + [d] && inFlight == old(inFlight) && posted == old(posted)
    {
      if |pending| >= maxPending { return false; }
      accepted := accepted + [d];
      pending := pending + [d];
      var failed := PumpSend(posts);
      taken := true;
    }

    /** A completion takes its own context off the list, exactly one entry, and pumps. */
    method OnCompleted(id: nat, posts: nat -> bool) returns (found: bool)
      requires Valid()
      modifies this`pending, this`inFlight, this`sendsInFlight, this`nextId, this`posted
      ensures Valid()
      ensures found <==> exists i :: 0 <= i < |old(inFlight)| && old(inFlight)[i].id == id
      ensures !found ==> inFlight == old(inFlight) && posted == old(posted)
      ensures found ==> forall e :: e in inFlight ==> e.id != id
      ensures found ==> exists at :: 0 <= at < |old(inFlight)| && old(inFlight)[at].id == id
                                     && old(inFlight)[..at] + old(inFlight)[at + 1..] <= inFlight
      ensures old(posted) <= posted
      ensures found && open && (forall k :: posts(k)) ==>
                pending == Pumped(Line(old(pending), old(sendsInFlight) - 1), empty).pending
      ensures !found || !open ==> pending == old(pending)
    {
      found := false;
      var at := 0;
      while at < |inFlight|
        invariant 0 <= at <= |inFlight|
        invariant forall i :: 0 <= i < at ==> inFlight[i].id != id
      {
        if inFlight[at].id == id {
          found := true;
          break;
        }
        at := at + 1;
      }
      if !found { return; }
      inFlight := inFlight[..at] + inFlight[at + 1..];
      ghost var kept := inFlight;
      sendsInFlight := sendsInFlight - 1;
      if open {
        var failed := PumpSend(posts);
      }
      assert kept == old(inFlight)[..at] + old(inFlight)[at + 1..] && kept <= inFlight;
      assert forall i :: 0 <= i < |inFlight| ==> inFlight[i].id != id;
    }

    /** Stop closes the socket and forgets what was never posted; sends in flight stay. */
    method Stop()
      requires Valid()
      modifies this
      ensures Valid() && !open && pending == []
      ensures inFlight == old(inFlight) && posted == old(posted) && accepted == posted
    {
      open := false;
      accepted := posted;
      pending := [];
    }
  }
}
