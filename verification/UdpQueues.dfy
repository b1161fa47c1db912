/**
 Datagrams that wait for a name: the relay's per-domain queues, the one lookup in flight per
 domain, and the notification that drains them. Every lock region is one step; the resolver
 and the completion port decide when a step happens and whether a post succeeds.
 */
module UdpQueues {
  import opened Bytes

  const MAX_DOMAINS := 256
  const MAX_PER_DOMAIN := 64

  type Domain = bytes

  datatype Packet = Packet(payload: bytes, port: u16)

  /** A lookup result on its way: in the relay's table, and posted to the port or not yet. */
  datatype Notify = Notify(domain: Domain, ip: Option<bytes>, posted: bool)

  /** Handed to ForwardPayload, or dropped with its batch. */
  datatype Fate = Forwarded(addr: bytes) | Dropped

  datatype Settled = Settled(packet: Packet, fate: Fate)

  datatype State = State(
    queues: map<Domain, seq<Packet>>,
    inFlight: set<Domain>,
    resolving: set<Domain>,
    notifies: map<nat, Notify>,
    stopped: bool,
    accepted: map<Domain, seq<Packet>>,
    settled: map<Domain, seq<Settled>>)

  const INITIAL := State(map[], {}, {}, map[], false, map[], map[])

  function Of<T>(m: map<Domain, seq<T>>, d: Domain): seq<T> {
    if d in m then m[d] else []
  }

  // ----- The steps

  /** A datagram for a domain is refused when its queue is full, or would be one domain too many. */
  predicate Refused(queues: map<Domain, seq<Packet>>, d: Domain) {
    || (Of(queues, d) == [] && |queues[d := Of(queues, d)]| > MAX_DOMAINS)
    || |Of(queues, d)| >= MAX_PER_DOMAIN
  }

  function QueuesAfter(queues: map<Domain, seq<Packet>>, d: Domain, p: Packet): map<Domain, seq<Packet>> {
    if !Refused(queues, d) then queues[d := Of(queues, d) + [p]]
    else if Of(queues, d) == [] then queues - {d} else queues
  }

  function Dispatch(s: State, d: Domain, p: Packet): State {
    if Refused(s.queues, d) then s.(queues := QueuesAfter(s.queues, d, p))
    else
      s.(queues := QueuesAfter(s.queues, d, p),
         inFlight := s.inFlight + {d},
         resolving := if d in s.inFlight then s.resolving else s.resolving + {d},
         accepted := s.accepted[d := Of(s.accepted, d) + [p]])
  }

  /** The resolver's callback: the result is put in the table, unless the relay has stopped. */
  function Callback(s: State, d: Domain, ip: Option<bytes>, id: nat): State {
    var t := s.(resolving := s.resolving - {d});
    if s.stopped then t else t.(notifies := t.notifies[id := Notify(d, ip, false)])
  }

  function Settle(ps: seq<Packet>, fate: Fate): (r: seq<Settled>)
    ensures |r| == |ps| && forall i :: 0 <= i < |ps| ==> r[i] == Settled(ps[i], fate)
  {
    seq(|ps|, i requires 0 <= i < |ps| => Settled(ps[i], fate))
  }

  function SettleAll(s: State, d: Domain, fate: Fate): map<Domain, seq<Settled>> {
    if Of(s.queues, d) == [] then s.settled
    else s.settled[d := Of(s.settled, d) + Settle(Of(s.queues, d), fate)]
  }

  /** The post of a notification; a failure forgets the lookup and the packets that wait on it. */
  function Post(s: State, id: nat, ok: bool): State
    requires id in s.notifies
  {
    var n := s.notifies[id];
    if ok then s.(notifies := s.notifies[id := n.(posted := true)])
    else s.(notifies := s.notifies - {id}, inFlight := s.inFlight - {n.domain},
            queues := s.queues - {n.domain}, settled := SettleAll(s, n.domain, Dropped))
  }

  /** The queues after a notification: the entry goes on failure, and is left empty on success. */
  function QueuesDrained(queues: map<Domain, seq<Packet>>, d: Domain, ip: Option<bytes>): map<Domain, seq<Packet>> {
    if Of(queues, d) == [] then queues else if ip.None? then queues - {d} else queues[d := []]
  }

  function DrainFate(ip: Option<bytes>, parsed: Option<bytes>): Fate {
    if ip.Some? && parsed.Some? then Forwarded(parsed.value) else Dropped
  }

  /** What a notification does to its domain; `parsed` is the address, if the text is one. */
  function Drain(s: State, d: Domain, ip: Option<bytes>, parsed: Option<bytes>): State {
    s.(inFlight := s.inFlight - {d}, queues := QueuesDrained(s.queues, d, ip),
       settled := SettleAll(s, d, DrainFate(ip, parsed)))
  }

  function Deliver(s: State, id: nat, parsed: Option<bytes>): State
    requires id in s.notifies
  {
    var n := s.notifies[id];
    var t := s.(notifies := s.notifies - {id});
    if s.stopped then t else Drain(t, n.domain, n.ip, parsed)
  }

  function Stop(s: State): State {
    s.(stopped := true, queues := map[], inFlight := {},
       settled := map d | d in s.settled.Keys + s.queues.Keys :: Of(s.settled, d) + Settle(Of(s.queues, d), Dropped))
  }

  datatype Event =
    | DispatchE(d: Domain, p: Packet)
    | CallbackE(d: Domain, ip: Option<bytes>, id: nat)
    | PostE(id: nat, ok: bool)
    | DeliverE(id: nat, parsed: Option<bytes>)
    | StopE

  /** When the environment may take a step; a running lookup calls back once. */
  predicate Enabled(s: State, e: Event) {
    match e
    case DispatchE(_, _) => !s.stopped
    case CallbackE(d, _, id) => d in s.resolving && id !in s.notifies
    case PostE(id, _) => id in s.notifies && !s.notifies[id].posted
    case DeliverE(id, _) => id in s.notifies && s.notifies[id].posted
    case StopE => true
  }

  function Step(s: State, e: Event): State
    requires Enabled(s, e)
  {
    match e
    case DispatchE(d, p) => Dispatch(s, d, p)
    case CallbackE(d, ip, id) => Callback(s, d, ip, id)
    case PostE(id, ok) => Post(s, id, ok)
    case DeliverE(id, parsed) => Deliver(s, id, parsed)
    case StopE => Stop(s)
  }

  // ----- What every step keeps

  ghost predicate HasNotify(s: State, d: Domain) {
    exists id :: id in s.notifies && s.notifies[id].domain == d
  }

  /** A domain in flight has exactly one lookup or one notification; queues wait only on those. */
  ghost predicate Served(s: State) {
    && (forall d :: d in s.queues && s.queues[d] != [] ==> d in s.inFlight)
    && (!s.stopped ==> forall d :: d in s.inFlight <==> d in s.resolving || HasNotify(s, d))
    && (forall id :: id in s.notifies ==> s.notifies[id].domain !in s.resolving)
    && (forall i, j :: i in s.notifies && j in s.notifies && i != j ==> s.notifies[i].domain != s.notifies[j].domain)
    && (s.stopped ==> s.inFlight == {})
  }

  ghost predicate Short(queues: map<Domain, seq<Packet>>) {
    && |queues| <= MAX_DOMAINS
    && forall d :: d in queues ==> |queues[d]| <= MAX_PER_DOMAIN
  }

  ghost predicate Bounded(s: State) {
    Short(s.queues)
  }

  function Packets(ss: seq<Settled>): (r: seq<Packet>)
    ensures |r| == |ss| && forall i :: 0 <= i < |ss| ==> r[i] == ss[i].packet
  {
    seq(|ss|, i requires 0 <= i < |ss| => ss[i].packet)
  }

  /** Per domain, what was accepted is what was settled followed by what still waits, in order. */
  ghost predicate Conserved(s: State) {
    forall d :: Of(s.accepted, d) == Packets(Of(s.settled, d)) + Of(s.queues, d)
  }

  ghost predicate Inv(s: State) {
    Served(s) && Bounded(s) && Conserved(s)
  }

  lemma DispatchServed(s: State, d: Domain, p: Packet)
    requires Served(s) && !s.stopped
    ensures Served(Dispatch(s, d, p))
  {
    hide QueuesAfter, Refused, HasNotify;
    var t := Dispatch(s, d, p);
    SameNotifies(s, t);
    AfterOf(s.queues, d, p);
    forall x | x in t.queues && t.queues[x] != [] ensures x in t.inFlight {
      assert Of(t.queues, x) != [];
      RefusedQueue(s.queues, d, p);
    }
    assert d !in s.inFlight ==> !HasNotify(s, d) && d !in s.resolving;
  }

  lemma SameNotifies(s: State, t: State)
    requires t.notifies == s.notifies
    ensures forall x :: HasNotify(t, x) == HasNotify(s, x)
    ensures forall id :: id in s.notifies ==> HasNotify(s, s.notifies[id].domain)
  {
  }

  lemma RefusedQueue(queues: map<Domain, seq<Packet>>, d: Domain, p: Packet)
    ensures forall x :: x in QueuesAfter(queues, d, p) && x != d ==> x in queues && QueuesAfter(queues, d, p)[x] == queues[x]
    ensures Refused(queues, d) && d in QueuesAfter(queues, d, p) ==> d in queues && QueuesAfter(queues, d, p)[d] == queues[d]
  {
    hide Refused;
  }

  lemma CallbackServed(s: State, d: Domain, ip: Option<bytes>, id: nat)
    requires Served(s) && d in s.resolving && id !in s.notifies
    ensures Served(Callback(s, d, ip, id))
  {
    var t := Callback(s, d, ip, id);
    if !s.stopped {
      forall x ensures HasNotify(t, x) == (HasNotify(s, x) || x == d) {
        if x == d {
          assert t.notifies[id].domain == d;
        }
        if HasNotify(s, x) {
          var j :| j in s.notifies && s.notifies[j].domain == x;
          assert t.notifies[j].domain == x;
        }
      }
    }
  }

  lemma DropNotify(s: State, t: State, id: nat)
    requires Served(s) && id in s.notifies && t.notifies == s.notifies - {id}
    ensures forall x :: HasNotify(t, x) == (HasNotify(s, x) && x != s.notifies[id].domain)
  {
    forall x ensures HasNotify(t, x) == (HasNotify(s, x) && x != s.notifies[id].domain) {
      if HasNotify(s, x) && x != s.notifies[id].domain {
        var j :| j in s.notifies && s.notifies[j].domain == x;
        assert t.notifies[j].domain == x;
      }
    }
  }

  lemma PostServed(s: State, id: nat, ok: bool)
    requires Served(s) && id in s.notifies
    ensures Served(Post(s, id, ok))
  {
    var t := Post(s, id, ok);
    var d := s.notifies[id].domain;
    if ok {
      forall x ensures HasNotify(t, x) == HasNotify(s, x) {
        if HasNotify(s, x) {
          var j :| j in s.notifies && s.notifies[j].domain == x;
          assert t.notifies[j].domain == x;
        }
      }
    } else {
      DropNotify(s, t, id);
    }
  }

  lemma DeliverServed(s: State, id: nat, parsed: Option<bytes>)
    requires Served(s) && id in s.notifies
    ensures Served(Deliver(s, id, parsed))
  {
    var t := Deliver(s, id, parsed);
    DropNotify(s, t, id);
  }

  lemma MapSizes<T>(m: map<Domain, T>, d: Domain, v: T)
    ensures |m - {d}| <= |m|
    ensures d in m ==> |m[d := v]| == |m|
    ensures d !in m ==> |m[d := v]| == |m| + 1
  {
    assert (m - {d}).Keys == m.Keys - {d};
    assert m[d := v].Keys == m.Keys + {d};
  }

  lemma AfterShort(queues: map<Domain, seq<Packet>>, d: Domain, p: Packet)
    requires Short(queues)
    ensures Short(QueuesAfter(queues, d, p))
  {
    MapSizes(queues, d, Of(queues, d));
    MapSizes(queues, d, Of(queues, d) + [p]);
  }

  lemma DrainedShort(queues: map<Domain, seq<Packet>>, d: Domain, ip: Option<bytes>)
    requires Short(queues)
    ensures Short(QueuesDrained(queues, d, ip)) && Short(queues - {d})
  {
    MapSizes(queues, d, []);
  }

  lemma StepBounded(s: State, e: Event)
    requires Bounded(s) && Enabled(s, e)
    ensures Bounded(Step(s, e))
  {
    hide Short, Settle, SettleAll, QueuesAfter, QueuesDrained, Refused;
    match e
    case DispatchE(d, p) => AfterShort(s.queues, d, p);
    case CallbackE(_, _, _) =>
    case PostE(id, _) => DrainedShort(s.queues, s.notifies[id].domain, None);
    case DeliverE(id, _) => DrainedShort(s.queues, s.notifies[id].domain, s.notifies[id].ip);
    case StopE => NoneShort();
  }

  lemma NoneShort()
    ensures Short(map[])
  {
  }

  lemma SettleConserved(s: State, d: Domain, fate: Fate)
    requires Conserved(s)
    ensures Of(s.accepted, d) == Packets(Of(SettleAll(s, d, fate), d))
    ensures forall x :: x != d ==> Of(SettleAll(s, d, fate), x) == Of(s.settled, x)
  {
    var q := Of(s.queues, d);
    assert Of(s.accepted, d) == Packets(Of(s.settled, d)) + q;
    assert Packets(Of(s.settled, d) + Settle(q, fate)) == Packets(Of(s.settled, d)) + q;
  }

  lemma DispatchConserved(s: State, d: Domain, p: Packet)
    requires Conserved(s)
    ensures Conserved(Dispatch(s, d, p))
  {
    hide QueuesAfter, Refused;
    AfterOf(s.queues, d, p);
    assert Of(s.accepted, d) + [p] == Packets(Of(s.settled, d)) + (Of(s.queues, d) + [p]);
  }

  lemma AfterOf(queues: map<Domain, seq<Packet>>, d: Domain, p: Packet)
    ensures forall x :: x != d ==> Of(QueuesAfter(queues, d, p), x) == Of(queues, x)
    ensures Of(QueuesAfter(queues, d, p), d) == if Refused(queues, d) then Of(queues, d) else Of(queues, d) + [p]
  {
    hide Refused;
  }

  lemma PostConserved(s: State, id: nat, ok: bool)
    requires Conserved(s) && id in s.notifies
    ensures Conserved(Post(s, id, ok))
  {
    SettleConserved(s, s.notifies[id].domain, Dropped);
  }

  lemma DrainConserved(s: State, d: Domain, ip: Option<bytes>, parsed: Option<bytes>)
    requires Conserved(s)
    ensures Conserved(Drain(s, d, ip, parsed))
  {
    SettleConserved(s, d, DrainFate(ip, parsed));
  }

  lemma StopConserved(s: State)
    requires Conserved(s)
    ensures Conserved(Stop(s))
  {
    forall d ensures Packets(Of(Stop(s).settled, d)) == Of(s.accepted, d) {
      assert Of(s.accepted, d) == Packets(Of(s.settled, d)) + Of(s.queues, d);
      assert Of(Stop(s).settled, d) == Of(s.settled, d) + Settle(Of(s.queues, d), Dropped);
    }
  }

  lemma StepConserved(s: State, e: Event)
    requires Conserved(s) && Enabled(s, e)
    ensures Conserved(Step(s, e))
  {
    hide Conserved, Post, Drain, Dispatch, Stop;
    match e {
      case DispatchE(d, p) => DispatchConserved(s, d, p);
      case CallbackE(d, ip, id) => FrameConserved(s, Callback(s, d, ip, id));
      case PostE(id, ok) => PostConserved(s, id, ok);
      case DeliverE(id, parsed) =>
        var n := s.notifies[id];
        var t := s.(notifies := s.notifies - {id});
        FrameConserved(s, t);
        DrainConserved(t, n.domain, n.ip, parsed);
      case StopE => StopConserved(s);
    }
  }

  lemma FrameConserved(s: State, t: State)
    requires Conserved(s) && t.queues == s.queues && t.accepted == s.accepted && t.settled == s.settled
    ensures Conserved(t)
  {
  }

  lemma StepInv(s: State, e: Event)
    requires Inv(s) && Enabled(s, e)
    ensures Inv(Step(s, e))
  {
    StepBounded(s, e);
    StepConserved(s, e);
    match e {
      case DispatchE(d, p) => DispatchServed(s, d, p);
      case CallbackE(d, ip, id) => CallbackServed(s, d, ip, id);
      case PostE(id, ok) => PostServed(s, id, ok);
      case DeliverE(id, parsed) => DeliverServed(s, id, parsed);
      case StopE =>
    }
  }

  ghost predicate IsRun(run: seq<State>, es: seq<Event>) {
    && |run| == |es| + 1 && run[0] == INITIAL
    && forall i :: 0 <= i < |es| ==> Enabled(run[i], es[i]) && run[i + 1] == Step(run[i], es[i])
  }

  /** In every state of every run: queues are served, bounded, and lose or repeat nothing. */
  lemma {:induction false} EveryRun(run: seq<State>, es: seq<Event>, k: nat)
    requires IsRun(run, es) && k < |run|
    ensures Inv(run[k])
    decreases k
  {
    if k > 0 {
      EveryRun(run, es, k - 1);
      StepInv(run[k - 1], es[k - 1]);
    }
  }

  /** While the relay runs, a packet that waits has a lookup or a notification that will reach it. */
  lemma NeverStranded(s: State, d: Domain)
    requires Inv(s) && Of(s.queues, d) != []
    ensures !s.stopped && (d in s.resolving || HasNotify(s, d))
    ensures d in s.resolving ==> !HasNotify(s, d)
  {
    assert d in s.inFlight;
  }

  /** These packets were settled behind what was settled before, each with this fate. */
  ghost predicate SettledBy(before: seq<Settled>, ps: seq<Packet>, after: seq<Settled>, fate: Fate) {
    && |after| == |before| + |ps| && before <= after
    && forall i :: 0 <= i < |ps| ==> after[|before| + i] == Settled(ps[i], fate)
  }

  /**
   The notification settles the whole queue in arrival order: every packet is forwarded to the
   resolved address if there is one and it can be read, and otherwise all are dropped. The entry
   of the domain goes only where nothing was resolved.
   */
  lemma DeliveryDrains(s: State, id: nat, parsed: Option<bytes>)
    requires !s.stopped && id in s.notifies
    ensures
      var n := s.notifies[id];
      var t, q := Deliver(s, id, parsed), Of(s.queues, n.domain);
      && Of(t.queues, n.domain) == [] && n.domain !in t.inFlight && id !in t.notifies
      && (n.ip.Some? && parsed.Some? ==> SettledBy(Of(s.settled, n.domain), q, Of(t.settled, n.domain), Forwarded(parsed.value)))
      && (n.ip.None? || parsed.None? ==> SettledBy(Of(s.settled, n.domain), q, Of(t.settled, n.domain), Dropped))
      && t.queues.Keys == (if q != [] && n.ip.None? then s.queues.Keys - {n.domain} else s.queues.Keys)
      && forall d :: d != n.domain ==> Of(t.queues, d) == Of(s.queues, d) && Of(t.settled, d) == Of(s.settled, d)
  {
    hide SettleAll;
    var n := s.notifies[id];
    SettledAll(s.(notifies := s.notifies - {id}), n.domain, DrainFate(n.ip, parsed));
    DrainedOf(s.queues, n.domain, n.ip);
  }

  /** A lookup whose notification cannot be posted drops what waits on it. */
  lemma FailedPostDrops(s: State, id: nat)
    requires id in s.notifies
    ensures
      var d, t := s.notifies[id].domain, Post(s, id, false);
      && d !in t.queues && d !in t.inFlight && id !in t.notifies
      && SettledBy(Of(s.settled, d), Of(s.queues, d), Of(t.settled, d), Dropped)
      && forall x :: x != d ==> Of(t.queues, x) == Of(s.queues, x) && Of(t.settled, x) == Of(s.settled, x)
  {
    hide SettleAll;
    SettledAll(s, s.notifies[id].domain, Dropped);
  }

  /**
   A datagram is refused exactly when its queue holds 64 already, or it would be the 257th domain.
   Otherwise it goes behind the others, and a lookup is started exactly if none is in flight.
   */
  lemma DispatchExact(s: State, d: Domain, p: Packet)
    requires Inv(s) && !s.stopped
    ensures
      var q, t := Of(s.queues, d), Dispatch(s, d, p);
      if |q| == 64 || (d !in s.queues && |s.queues| == 256) then t == s
      else
        && Of(t.queues, d) == q + [p] && Of(t.accepted, d) == Of(s.accepted, d) + [p] && d in t.inFlight
        && t.resolving == (if d in s.inFlight then s.resolving else s.resolving + {d})
        && t.notifies == s.notifies && t.settled == s.settled
        && forall x :: x != d ==> Of(t.queues, x) == Of(s.queues, x) && (x in t.inFlight <==> x in s.inFlight)
  {
    hide Served, Conserved, Refused, QueuesAfter, Short;
    RefusedExactly(s.queues, d, p);
    AfterOf(s.queues, d, p);
  }

  lemma RefusedExactly(queues: map<Domain, seq<Packet>>, d: Domain, p: Packet)
    requires Short(queues)
    ensures Refused(queues, d) <==> |Of(queues, d)| == 64 || (d !in queues && |queues| == 256)
    ensures Refused(queues, d) ==> QueuesAfter(queues, d, p) == queues
  {
    MapSizes(queues, d, Of(queues, d));
    assert d !in queues ==> queues - {d} == queues;
  }

  /** An address that the resolver brings, posted and delivered, forwards everything that waited for it. */
  lemma AnswerForwards(s: State, d: Domain, ip: bytes, addr: bytes, id: nat)
    requires !s.stopped && d in s.resolving && id !in s.notifies
    ensures Enabled(s, CallbackE(d, Some(ip), id))
    ensures var t := Step(s, CallbackE(d, Some(ip), id));
            && Enabled(t, PostE(id, true))
            && var u := Step(t, PostE(id, true));
               && Enabled(u, DeliverE(id, Some(addr)))
               && var w := Step(u, DeliverE(id, Some(addr)));
                  && Of(w.queues, d) == [] && d !in w.resolving && d !in w.inFlight
                  && SettledBy(Of(s.settled, d), Of(s.queues, d), Of(w.settled, d), Forwarded(addr))
  {
    var t := Step(s, CallbackE(d, Some(ip), id));
    var u := Step(t, PostE(id, true));
    DeliveryDrains(u, id, Some(addr));
    hide Deliver;
  }

  lemma SettledAll(s: State, d: Domain, fate: Fate)
    ensures Of(SettleAll(s, d, fate), d) == Of(s.settled, d) + Settle(Of(s.queues, d), fate)
    ensures forall x :: x != d ==> Of(SettleAll(s, d, fate), x) == Of(s.settled, x)
  {
    assert Settle([], fate) == [];
    assert Of(s.settled, d) + [] == Of(s.settled, d);
  }

  lemma DrainedOf(queues: map<Domain, seq<Packet>>, d: Domain, ip: Option<bytes>)
    ensures Of(QueuesDrained(queues, d, ip), d) == []
    ensures forall x :: x != d ==> Of(QueuesDrained(queues, d, ip), x) == Of(queues, x)
  {
  }

  /** The queues with the entry that looking a domain up leaves behind, and what is made of them. */
  lemma Cases(queues: map<Domain, seq<Packet>>, d: Domain, p: Packet)
    ensures var q := Of(queues, d);
            var seen := queues[d := q];
            && Refused(queues, d) == ((q == [] && |seen| > MAX_DOMAINS) || |q| >= MAX_PER_DOMAIN)
            && QueuesAfter(queues, d, p)
               == if !Refused(queues, d) then seen[d := q + [p]] else if q == [] then seen - {d} else seen
  {
    var q := Of(queues, d);
    var seen := queues[d := q];
    assert seen[d := q + [p]] == queues[d := q + [p]];
    assert seen - {d} == queues - {d};
    assert q != [] ==> seen == queues;
  }

  // ----- The code

  class UdpRelay {
    var pendingByDomain: map<Domain, seq<Packet>>
    var dnsInFlight: set<Domain>
    /** Calls of ForwardPayload, oldest first. */
    var forwarded: seq<(bytes, Packet)>

    /** One locked region: queue the packet, and say whether a lookup must be started. */
    method DispatchClientPayload(d: Domain, p: Packet) returns (startResolve: bool)
      modifies this`pendingByDomain, this`dnsInFlight
      ensures pendingByDomain == QueuesAfter(old(pendingByDomain), d, p)
      ensures dnsInFlight == if Refused(old(pendingByDomain), d) then old(dnsInFlight) else old(dnsInFlight) + {d}
      ensures startResolve == (!Refused(old(pendingByDomain), d) && d !in old(dnsInFlight))
    {
      hide Refused, QueuesAfter;
      Cases(pendingByDomain, d, p);
      var queue := Of(pendingByDomain, d);
      pendingByDomain := pendingByDomain[d := queue];
      if (queue == [] && |pendingByDomain| > MAX_DOMAINS) || |queue| >= MAX_PER_DOMAIN {
        if queue == [] { pendingByDomain := pendingByDomain - {d}; }
        return false;
      }
      pendingByDomain := pendingByDomain[d := queue + [p]];
      startResolve := d !in dnsInFlight;
      dnsInFlight := dnsInFlight + {d};
    }

    /** The draining loop, which no other handler of the relay can interrupt. */
    method OnDnsNotify(d: Domain, ip: Option<bytes>, parsed: Option<bytes>)
      modifies this
      ensures pendingByDomain == QueuesDrained(old(pendingByDomain), d, ip)
      ensures dnsInFlight == old(dnsInFlight) - {d}
      ensures ip.Some? && parsed.Some? ==>
                var q := Of(old(pendingByDomain), d);
                && |forwarded| == |old(forwarded)| + |q| && old(forwarded) <= forwarded
                && forall i :: 0 <= i < |q| ==> forwarded[|old(forwarded)| + i] == (parsed.value, q[i])
      ensures ip.None? || parsed.None? ==> forwarded == old(forwarded)
    {
      var rounds := 0;
      while true
        invariant rounds == 0 ==> pendingByDomain == old(pendingByDomain) && forwarded == old(forwarded)
        invariant rounds > 0 ==>
                    && Of(old(pendingByDomain), d) != [] && ip.Some?
                    && pendingByDomain == old(pendingByDomain)[d := []]
                    && forwarded == old(forwarded) + Sends(DrainFate(ip, parsed), Of(old(pendingByDomain), d))
        invariant dnsInFlight == old(dnsInFlight) && 0 <= rounds <= 1
        decreases 2 - rounds
      {
        if d !in pendingByDomain || pendingByDomain[d] == [] {
          dnsInFlight := dnsInFlight - {d};
          return;
        }
        var batch := pendingByDomain[d];
        pendingByDomain := pendingByDomain[d := []];
        if ip.None? {
          pendingByDomain := pendingByDomain - {d};
          assert pendingByDomain == old(pendingByDomain) - {d};
          dnsInFlight := dnsInFlight - {d};
          return;
        }
        if parsed.Some? {
          ghost var sofar := forwarded;
          for i := 0 to |batch|
            modifies this`forwarded
            invariant forwarded == sofar + Sends(Forwarded(parsed.value), batch[..i])
          {
            assert batch[..i + 1] == batch[..i] + [batch[i]];
            forwarded := forwarded + [(parsed.value, batch[i])];
          }
          assert batch[..|batch|] == batch;
        }
        rounds := rounds + 1;
      }
    }
  }

  /** The forwarding calls for a batch: one per packet, in order, each with its own port; none when it is dropped. */
  function Sends(fate: Fate, ps: seq<Packet>): (r: seq<(bytes, Packet)>)
    ensures fate.Forwarded? ==> |r| == |ps| && forall i :: 0 <= i < |ps| ==> r[i] == (fate.addr, ps[i])
    ensures fate.Dropped? ==> r == []
  {
    if fate.Dropped? then [] else seq(|ps|, i requires 0 <= i < |ps| => (fate.addr, ps[i]))
  }
}
