/**
 The resolver's table of pending queries: one index by transaction id, one by domain, and the
 timers that watch them. Every function is what one region under the resolver's mutex does.
 */
module DnsTable {
  import opened Bytes
  import opened DnsNames

  const MAX_QUERIES := 4096
  const MAX_CALLBACKS := 256
  const MAX_UDP_ATTEMPTS := 3

  const TYPE_A := 1
  const TYPE_AAAA := 28

  /** How often each transport was tried for each record type. */
  datatype Tries = Tries(udpA: nat, tcpA: nat, udpAAAA: nat, tcpAAAA: nat)

  type Qid = nat
  type TimerId = nat

  /** `calls` are the callbacks that wait for the answer; `timer` is None where the source has 0. */
  datatype Query = Query(domain: bytes, txid: u16, qtype: nat, tryAAAA: bool, viaTcp: bool, attempts: nat,
                         calls: set<nat>, timer: Option<TimerId>, tries: Tries)

  /** A scheduled timer carries a transaction id; once queued at the port it cannot be cancelled. */
  datatype Timer = Timer(txid: u16, queued: bool)

  /** `used` and `discarded` remember timer ids. */
  datatype Table = Table(queries: map<Qid, Query>, byId: map<u16, Qid>, byDomain: map<bytes, Qid>,
                         timers: map<TimerId, Timer>, used: set<TimerId>, discarded: set<TimerId>)

  const EMPTY := Table(map[], map[], map[], map[], {}, {})

  // ----- Operations

  function Put(t: Table, q: Qid, x: Query): Table {
    t.(queries := t.queries[q := x])
  }

  function CancelTimer(t: Table, q: Qid): Table
    requires q in t.queries
  {
    var x := t.queries[q];
    if x.timer.None? then t
    else
      var i := x.timer.value;
      Put(t, q, x.(timer := None)).(timers := if i in t.timers && !t.timers[i].queued then t.timers - {i} else t.timers)
  }

  /** None is a refused schedule. */
  function Arm(t: Table, q: Qid, timer: Option<TimerId>): Table
    requires q in t.queries
  {
    var u := CancelTimer(t, q);
    if timer.None? then u
    else Put(u, q, u.queries[q].(timer := timer)).(timers := u.timers[timer.value := Timer(u.queries[q].txid, false)], used := u.used + {timer.value})
  }

  function Unregister(t: Table, q: Qid): Table
    requires q in t.queries
  {
    t.(byId := t.byId - {t.queries[q].txid}, byDomain := t.byDomain - {t.queries[q].domain})
  }

  function Register(t: Table, q: Qid, x: Query): Table {
    Put(t, q, x).(byId := t.byId[x.txid := q], byDomain := t.byDomain[x.domain := q])
  }

  function Rekey(t: Table, q: Qid, id: u16): Table
    requires q in t.queries
  {
    Put(t, q, t.queries[q].(txid := id)).(byId := (t.byId - {t.queries[q].txid})[id := q])
  }

  /** One more attempt over UDP, counted for the query's record type. */
  function TriedUdp(x: Query): Query {
    x.(viaTcp := false, attempts := x.attempts + 1,
       tries := if x.qtype == TYPE_A then x.tries.(udpA := x.tries.udpA + 1) else x.tries.(udpAAAA := x.tries.udpAAAA + 1))
  }

  function TriedTcp(x: Query): Query {
    x.(viaTcp := true,
       tries := if x.qtype == TYPE_A then x.tries.(tcpA := x.tries.tcpA + 1) else x.tries.(tcpAAAA := x.tries.tcpAAAA + 1))
  }

  /** BeginUdpQueryLocked: a query that cannot be printed or timed leaves both indexes. */
  function BeginUdp(t: Table, q: Qid, timer: Option<TimerId>): Table
    requires q in t.queries
  {
    var u := Put(t, q, TriedUdp(t.queries[q]));
    if !WellFormedDomain(t.queries[q].domain) then Unregister(u, q)
    else
      var v := Arm(u, q, timer);
      if timer.None? then Unregister(v, q) else v
  }

  // ----- The two indexes

  predicate Live(t: Table, q: Qid) {
    q in t.queries && t.queries[q].txid in t.byId && t.byId[t.queries[q].txid] == q
  }

  /** An entry leads to a query under its current id, which the other index has too. */
  ghost predicate IdOk(t: Table, i: u16) {
    && i in t.byId && i != 0
    && var q := t.byId[i];
       q in t.queries && t.queries[q].txid == i && t.queries[q].domain in t.byDomain && t.byDomain[t.queries[q].domain] == q
  }

  ghost predicate DomainOk(t: Table, d: bytes) {
    d in t.byDomain && Live(t, t.byDomain[d]) && t.queries[t.byDomain[d]].domain == d
  }

  /** Both indexes hold the same queries, keyed by current transaction id and by domain. */
  ghost predicate Indexed(t: Table) {
    && (forall i :: i in t.byId ==> IdOk(t, i))
    && (forall d :: d in t.byDomain ==> DomainOk(t, d))
    && |t.byId| == |t.byDomain| <= MAX_QUERIES
  }

  /** The same, as a one-to-one correspondence. */
  lemma Bijection(t: Table)
    requires Indexed(t)
    ensures t.byId.Values == t.byDomain.Values
    ensures forall i, j :: i in t.byId && j in t.byId && t.byId[i] == t.byId[j] ==> i == j
    ensures forall d, e :: d in t.byDomain && e in t.byDomain && t.byDomain[d] == t.byDomain[e] ==> d == e
  {
    forall q | q in t.byId.Values ensures q in t.byDomain.Values {
      var i :| i in t.byId && t.byId[i] == q;
      assert IdOk(t, i);
    }
    forall q | q in t.byDomain.Values ensures q in t.byId.Values {
      var d :| d in t.byDomain && t.byDomain[d] == q;
      assert DomainOk(t, d);
    }
    assert forall i :: i in t.byId ==> IdOk(t, i);
    assert forall d :: d in t.byDomain ==> DomainOk(t, d);
  }

  lemma SizeOfKeys<K, V>(m: map<K, V>, k: K, v: V)
    ensures k in m ==> |m - {k}| == |m| - 1
    ensures k !in m ==> |m[k := v]| == |m| + 1 && m - {k} == m
    ensures k in m ==> |m[k := v]| == |m|
  {
    assert (m - {k}).Keys == m.Keys - {k};
    assert m[k := v].Keys == m.Keys + {k};
  }

  /** A change of a query that keeps its id and its domain. */
  lemma PutIndexed(t: Table, q: Qid, x: Query)
    requires Indexed(t) && q in t.queries && x.txid == t.queries[q].txid && x.domain == t.queries[q].domain
    ensures Indexed(Put(t, q, x))
    ensures forall r :: Live(Put(t, q, x), r) == Live(t, r)
  {
    var u := Put(t, q, x);
    forall i | i in u.byId ensures IdOk(u, i) {
      assert IdOk(t, i);
    }
    forall d | d in u.byDomain ensures DomainOk(u, d) {
      assert DomainOk(t, d);
    }
  }

  lemma UnregisterIndexed(t: Table, q: Qid)
    requires Indexed(t) && Live(t, q)
    ensures Indexed(Unregister(t, q)) && !Live(Unregister(t, q), q)
    ensures forall r :: r != q ==> Live(Unregister(t, q), r) == Live(t, r)
  {
    var x, u := t.queries[q], Unregister(t, q);
    assert IdOk(t, x.txid);
    SizeOfKeys(t.byId, x.txid, q);
    SizeOfKeys(t.byDomain, x.domain, q);
    forall i | i in u.byId ensures IdOk(u, i) {
      assert IdOk(t, i);
    }
    forall d | d in u.byDomain ensures DomainOk(u, d) {
      assert DomainOk(t, d);
    }
  }

  lemma RegisterIds(t: Table, q: Qid, x: Query, i: u16)
    requires q !in t.queries && x.txid !in t.byId && x.txid != 0 && x.domain !in t.byDomain
    requires i == x.txid || IdOk(t, i)
    ensures IdOk(Register(t, q, x), i)
  {
  }

  lemma RegisterDomains(t: Table, q: Qid, x: Query, d: bytes)
    requires q !in t.queries && x.txid !in t.byId && x.domain !in t.byDomain
    requires d == x.domain || DomainOk(t, d)
    ensures DomainOk(Register(t, q, x), d)
  {
  }

  lemma RegisterLive(t: Table, q: Qid, x: Query)
    requires q !in t.queries && x.txid !in t.byId
    ensures Live(Register(t, q, x), q)
    ensures forall r :: r != q ==> Live(Register(t, q, x), r) == Live(t, r)
  {
  }

  lemma RegisterIndexed(t: Table, q: Qid, x: Query)
    requires Indexed(t) && q !in t.queries && x.txid !in t.byId && x.txid != 0 && x.domain !in t.byDomain && |t.byDomain| < MAX_QUERIES
    ensures Indexed(Register(t, q, x)) && Live(Register(t, q, x), q)
    ensures forall r :: r != q ==> Live(Register(t, q, x), r) == Live(t, r)
  {
    hide IdOk, DomainOk, Live;
    var u := Register(t, q, x);
    RegisterLive(t, q, x);
    SizeOfKeys(t.byId, x.txid, q);
    SizeOfKeys(t.byDomain, x.domain, q);
    forall i | i in u.byId ensures IdOk(u, i) {
      RegisterIds(t, q, x, i);
    }
    forall d | d in u.byDomain ensures DomainOk(u, d) {
      RegisterDomains(t, q, x, d);
    }
  }

  lemma RekeyIds(t: Table, q: Qid, id: u16, i: u16)
    requires Live(t, q) && id != 0 && id !in t.byId - {t.queries[q].txid} && IdOk(t, t.queries[q].txid)
    requires i == id || (IdOk(t, i) && i != t.queries[q].txid)
    ensures IdOk(Rekey(t, q, id), i)
  {
  }

  lemma RekeyDomains(t: Table, q: Qid, id: u16, d: bytes)
    requires Live(t, q) && id !in t.byId - {t.queries[q].txid} && DomainOk(t, d)
    ensures DomainOk(Rekey(t, q, id), d)
  {
  }

  lemma RekeySizes(t: Table, q: Qid, id: u16)
    requires Live(t, q) && id !in t.byId - {t.queries[q].txid}
    ensures |Rekey(t, q, id).byId| == |t.byId|
  {
    var was := t.queries[q].txid;
    SizeOfKeys(t.byId, was, q);
    SizeOfKeys(t.byId - {was}, id, q);
  }

  lemma RekeyIndexed(t: Table, q: Qid, id: u16)
    requires Indexed(t) && Live(t, q) && id != 0 && id !in t.byId - {t.queries[q].txid}
    ensures Indexed(Rekey(t, q, id)) && Live(Rekey(t, q, id), q)
    ensures forall r :: r != q ==> Live(Rekey(t, q, id), r) == Live(t, r)
  {
    hide IdOk, DomainOk;
    var u := Rekey(t, q, id);
    RekeySizes(t, q, id);
    assert IdOk(t, t.queries[q].txid);
    forall i | i in u.byId ensures IdOk(u, i) {
      RekeyIds(t, q, id, i);
    }
    forall d | d in u.byDomain ensures DomainOk(u, d) {
      RekeyDomains(t, q, id, d);
    }
    RekeyLive(t, q, id);
  }

  lemma RekeyLive(t: Table, q: Qid, id: u16)
    requires Live(t, q) && id !in t.byId - {t.queries[q].txid}
    ensures Live(Rekey(t, q, id), q)
    ensures forall r :: r != q ==> Live(Rekey(t, q, id), r) == Live(t, r)
  {
  }
}
