/** What the regions under the resolver's mutex do to the one query they are about, and to all others. */
module DnsTableProofs {
  import opened Bytes
  import opened DnsNames
  import opened DnsTable

  // ----- Timers

  /** The query's own timer is scheduled or queued under its current id, or was discarded. */
  ghost predicate Watched(t: Table, q: Qid) {
    && q in t.queries && t.queries[q].timer.Some?
    && var x := t.queries[q].timer.value;
       x in t.discarded || (x in t.timers && t.timers[x].txid == t.queries[q].txid)
  }

  /** Timer ids are never used twice. */
  ghost predicate Clock(t: Table) {
    && (forall x :: x in t.timers ==> x in t.used && x !in t.discarded)
    && (forall x :: x in t.discarded ==> x in t.used)
    && (forall q :: q in t.queries && t.queries[q].timer.Some? ==> t.queries[q].timer.value in t.used)
    && (forall q, r :: q in t.queries && r in t.queries && q != r && t.queries[q].timer.Some? && t.queries[r].timer.Some?
          ==> t.queries[q].timer.value != t.queries[r].timer.value)
  }

  /** Nothing happens to any query but this one. */
  ghost predicate Others(t: Table, u: Table, q: Qid) {
    forall r :: r != q ==>
      && Live(u, r) == Live(t, r)
      && (Live(t, r) ==> r in u.queries && u.queries[r] == t.queries[r])
      && (Live(t, r) && Watched(t, r) ==> Watched(u, r))
  }

  lemma OthersAll(t: Table, u: Table, v: Table, q: Qid)
    ensures Others(t, t, q)
    ensures Others(t, u, q) && Others(u, v, q) ==> Others(t, v, q)
  {
    hide Watched;
  }

  /** A change of the query itself, its timer included or not. */
  lemma PutOthers(t: Table, q: Qid, x: Query)
    requires Indexed(t) && Clock(t) && q in t.queries && x.txid == t.queries[q].txid && x.domain == t.queries[q].domain
    requires x.timer.None? || x.timer == t.queries[q].timer
    ensures var u := Put(t, q, x); Indexed(u) && Clock(u) && Others(t, u, q) && Live(u, q) == Live(t, q)
  {
    hide Indexed;
    PutIndexed(t, q, x);
    hide Live;
  }

  lemma CancelClock(t: Table, q: Qid)
    requires Clock(t) && q in t.queries
    ensures Clock(CancelTimer(t, q))
  {
  }

  lemma CancelOthers(t: Table, q: Qid)
    requires Indexed(t) && Clock(t) && q in t.queries
    ensures var u := CancelTimer(t, q);
            && Indexed(u) && Clock(u) && Others(t, u, q) && Live(u, q) == Live(t, q)
            && q in u.queries && u.queries[q] == t.queries[q].(timer := None)
            && u.byId == t.byId && u.byDomain == t.byDomain && u.used == t.used
  {
    hide Indexed, Clock, Watched, Live;
    LiveKnown(t);
    CancelClock(t, q);
    CancelWatched(t, q);
    var v := Put(t, q, t.queries[q].(timer := None));
    PutIndexed(t, q, t.queries[q].(timer := None));
    CancelQueries(t, q);
    hide CancelTimer;
    SameIndexed(v, CancelTimer(t, q));
  }

  lemma CancelQueries(t: Table, q: Qid)
    requires q in t.queries
    ensures var u := CancelTimer(t, q);
            && u.queries == t.queries[q := t.queries[q].(timer := None)]
            && u.byId == t.byId && u.byDomain == t.byDomain && u.used == t.used
  {
  }

  lemma CancelWatched(t: Table, q: Qid)
    requires Clock(t) && q in t.queries
    ensures forall r :: r != q && Watched(t, r) ==> Watched(CancelTimer(t, q), r)
  {
  }

  lemma SameIndexed(t: Table, u: Table)
    requires Indexed(t) && u.queries == t.queries && u.byId == t.byId && u.byDomain == t.byDomain
    ensures Indexed(u) && forall q :: Live(u, q) == Live(t, q)
  {
    forall i | i in u.byId ensures IdOk(u, i) {
      assert IdOk(t, i);
    }
    forall d | d in u.byDomain ensures DomainOk(u, d) {
      assert DomainOk(t, d);
    }
  }

  function Set(t: Table, q: Qid, x: TimerId): Table
    requires q in t.queries
  {
    Put(t, q, t.queries[q].(timer := Some(x))).(timers := t.timers[x := Timer(t.queries[q].txid, false)], used := t.used + {x})
  }

  lemma SetClock(t: Table, q: Qid, x: TimerId)
    requires Clock(t) && q in t.queries && x !in t.used
    ensures Clock(Set(t, q, x)) && Watched(Set(t, q, x), q)
    ensures forall r :: r != q && Watched(t, r) ==> Watched(Set(t, q, x), r)
  {
  }

  lemma ArmOthers(t: Table, q: Qid, timer: Option<TimerId>)
    requires Indexed(t) && Clock(t) && q in t.queries && (timer.Some? ==> timer.value !in t.used)
    ensures var u := Arm(t, q, timer);
            && Indexed(u) && Clock(u) && Others(t, u, q) && Live(u, q) == Live(t, q)
            && q in u.queries && u.queries[q] == t.queries[q].(timer := timer)
            && (timer.Some? ==> Watched(u, q))
            && u.byId == t.byId && u.byDomain == t.byDomain
  {
    hide Indexed, Clock, CancelTimer, Watched;
    CancelOthers(t, q);
    var u := CancelTimer(t, q);
    if timer.Some? {
      var v := Set(u, q, timer.value);
      assert Arm(t, q, timer) == v;
      SetClock(u, q, timer.value);
      var w := Put(u, q, u.queries[q].(timer := timer));
      PutIndexed(u, q, u.queries[q].(timer := timer));
      SameIndexed(w, v);
      OthersAll(t, u, v, q);
    }
  }

  lemma UnregisterOthers(t: Table, q: Qid)
    requires Indexed(t) && Clock(t) && Live(t, q)
    ensures var u := Unregister(t, q); Indexed(u) && Clock(u) && Others(t, u, q) && !Live(u, q)
  {
    hide Indexed, Clock, Watched, Live;
    LiveKnown(t);
    UnregisterIndexed(t, q);
    UnregisterWatched(t, q);
  }

  lemma LiveKnown(t: Table)
    ensures forall q :: Live(t, q) ==> q in t.queries
  {
  }

  lemma UnregisterWatched(t: Table, q: Qid)
    requires Clock(t) && q in t.queries
    ensures Clock(Unregister(t, q))
    ensures forall r :: Watched(t, r) ==> Watched(Unregister(t, q), r)
  {
    hide Clock;
    SameClock(t, Unregister(t, q));
  }

  lemma SameClock(t: Table, u: Table)
    requires Clock(t) && u.timers == t.timers && u.used == t.used && u.discarded == t.discarded && u.queries == t.queries
    ensures Clock(u)
  {
  }

  lemma RekeyOthers(t: Table, q: Qid, id: u16)
    requires Indexed(t) && Clock(t) && Live(t, q) && id != 0 && id !in t.byId - {t.queries[q].txid}
    ensures var u := Rekey(t, q, id);
            && Indexed(u) && Clock(u) && Others(t, u, q) && Live(u, q)
            && u.queries[q] == t.queries[q].(txid := id) && u.used == t.used
  {
    hide Indexed, Clock, Watched;
    RekeyIndexed(t, q, id);
    RekeyWatched(t, q, id);
    assert q in t.queries;
    hide Live;
  }

  lemma RekeyWatched(t: Table, q: Qid, id: u16)
    requires Clock(t) && q in t.queries
    ensures Clock(Rekey(t, q, id))
    ensures forall r :: r != q && Watched(t, r) ==> Watched(Rekey(t, q, id), r)
  {
  }

  lemma RegisterOthers(t: Table, q: Qid, x: Query)
    requires Indexed(t) && Clock(t) && q !in t.queries && x.timer.None?
    requires x.txid !in t.byId && x.txid != 0 && x.domain !in t.byDomain && |t.byDomain| < MAX_QUERIES
    ensures var u := Register(t, q, x); Indexed(u) && Clock(u) && Others(t, u, q) && Live(u, q)
  {
    hide Indexed, Clock, Watched, Live;
    LiveKnown(t);
    RegisterIndexed(t, q, x);
    RegisterWatched(t, q, x);
  }

  lemma RegisterWatched(t: Table, q: Qid, x: Query)
    requires Clock(t) && q !in t.queries && x.timer.None?
    ensures Clock(Register(t, q, x))
    ensures forall r :: r != q && Watched(t, r) ==> Watched(Register(t, q, x), r)
  {
  }

  // ----- One attempt

  lemma BeginOthers(t: Table, q: Qid, timer: Option<TimerId>)
    requires Indexed(t) && Clock(t) && Live(t, q) && (timer.Some? ==> timer.value !in t.used)
    ensures var u := BeginUdp(t, q, timer);
            && Indexed(u) && Clock(u) && Others(t, u, q) && q in u.queries
            && (Live(u, q) <==> WellFormedDomain(t.queries[q].domain) && timer.Some?)
            && (Live(u, q) ==> Watched(u, q) && u.queries[q] == TriedUdp(t.queries[q]).(timer := timer))
  {
    hide Indexed, Clock, Watched, WellFormedDomain, Others, Arm, Unregister;
    var x := TriedUdp(t.queries[q]);
    var u := Put(t, q, x);
    PutOthers(t, q, x);
    if !WellFormedDomain(t.queries[q].domain) {
      UnregisterOthers(u, q);
      OthersAll(t, u, Unregister(u, q), q);
      UnregisterSame(u, q);
    } else {
      var v := Arm(u, q, timer);
      ArmOthers(u, q, timer);
      OthersAll(t, u, v, q);
      if timer.None? {
        UnregisterOthers(v, q);
        OthersAll(t, v, Unregister(v, q), q);
        UnregisterSame(v, q);
      }
    }
  }

  lemma UnregisterSame(t: Table, q: Qid)
    requires q in t.queries
    ensures Unregister(t, q).queries == t.queries
  {
  }

  // ----- The budget

  function One(yes: bool): nat {
    if yes then 1 else 0
  }

  /** What a pending query has used up: at most three UDP attempts and one TCP attempt per type. */
  predicate Within(x: Query) {
    && 1 <= x.attempts <= MAX_UDP_ATTEMPTS
    && (x.qtype == TYPE_A || (x.qtype == TYPE_AAAA && !x.tryAAAA))
    && (x.qtype == TYPE_A ==> x.tries == Tries(x.attempts, One(x.viaTcp), 0, 0))
    && (x.qtype == TYPE_AAAA ==> x.tries.udpA <= MAX_UDP_ATTEMPTS && x.tries.tcpA <= 1
                                 && x.tries.udpAAAA == x.attempts && x.tries.tcpAAAA == One(x.viaTcp))
  }

  /** What it has left: the other type, then TCP after UDP, then UDP attempts. */
  function Left(x: Query): nat {
    (if x.qtype == TYPE_A && x.tryAAAA then 4 else 0) + (if x.viaTcp || x.attempts > 4 then 0 else 4 - x.attempts)
  }

  lemma RetryLeft(x: Query, y: Query)
    requires Within(x) && !x.viaTcp && x.attempts < MAX_UDP_ATTEMPTS && y == TriedUdp(x.(txid := y.txid)).(timer := y.timer)
    ensures Within(y) && Left(y) < Left(x)
  {
  }

  lemma TcpLeft(x: Query)
    requires Within(x) && !x.viaTcp
    ensures Within(TriedTcp(x)) && Left(TriedTcp(x)) < Left(x)
  {
  }

  lemma AaaaLeft(x: Query, y: Query)
    requires Within(x) && x.qtype == TYPE_A && x.tryAAAA
    requires y == TriedUdp(x.(qtype := TYPE_AAAA, tryAAAA := false, attempts := 0, txid := y.txid)).(timer := y.timer)
    ensures Within(y) && Left(y) < Left(x)
  {
  }
}
