/**
 The DNS client's answer cache: case-folded names, a deadline per entry, and an eviction
 of arbitrary entries when it is full. Time is a parameter, in milliseconds.
 */
module DnsCache {
  import opened Bytes
  import opened DnsMessages

  const CAPACITY := 10_000
  const EVICTED := 1_000

  datatype Entry = Entry(address: Option<bytes>, expiryMs: int, negative: bool)

  type Table = map<bytes, Entry>

  /** What happened to the table, oldest first. */
  datatype Event = Stored(name: bytes, result: DnsResult, atMs: int) | Evicted(name: bytes)

  function FoldByte(c: byte): byte {
    if 65 <= c <= 90 then c + 32 else c
  }

  /** Lower case, as in the C locale. */
  function Fold(s: bytes): (r: bytes)
    ensures |r| == |s| && forall i :: 0 <= i < |s| ==> r[i] == FoldByte(s[i])
  {
    if s == [] then [] else [FoldByte(s[0])] + Fold(s[1..])
  }

  /** Seconds that an answer is kept: its TTL, 30 for a TTL of zero, 5 for "no address". */
  function Lifetime(r: DnsResult): nat {
    if r.address.None? then 5 else if r.ttl > 0 then r.ttl else 30
  }

  function EntryOf(r: DnsResult, atMs: int): Entry {
    Entry(r.address, atMs + Lifetime(r) * 1000, r.address.None?)
  }

  /** The most recent event about a name. */
  function Latest(history: seq<Event>, name: bytes): Option<Event> {
    if history == [] then None
    else if history[|history| - 1].name == name then Some(history[|history| - 1])
    else Latest(history[..|history| - 1], name)
  }

  /** The table is what its history says: present exactly when stored and not evicted since. */
  ghost predicate Agrees(table: Table, history: seq<Event>) {
    && |table| <= CAPACITY
    && forall name ::
         match Latest(history, name)
         case Some(Stored(_, result, atMs)) => name in table && table[name] == EntryOf(result, atMs)
         case _ => name !in table
  }

  lemma LatestSnoc(history: seq<Event>, e: Event, name: bytes)
    ensures Latest(history + [e], name) == if e.name == name then Some(e) else Latest(history, name)
  {
    assert (history + [e])[..|history|] == history;
  }

  lemma EvictAgrees(table: Table, history: seq<Event>, name: bytes)
    requires Agrees(table, history)
    ensures Agrees(table - {name}, history + [Evicted(name)])
  {
    forall n ensures Latest(history + [Evicted(name)], n) == if name == n then Some(Evicted(name)) else Latest(history, n) {
      LatestSnoc(history, Evicted(name), n);
    }
    assert (table - {name}).Keys <= table.Keys;
    SmallerTable(table - {name}, table);
  }

  lemma SmallerTable(a: Table, b: Table)
    requires a.Keys <= b.Keys
    ensures |a| <= |b|
  {
    assert |a.Keys| <= |b.Keys| by { Subset(a.Keys, b.Keys); }
  }

  lemma Subset(a: set<bytes>, b: set<bytes>)
    requires a <= b
    ensures |a| <= |b|
  {
    assert b == a + (b - a);
  }

  lemma StoreAgrees(table: Table, history: seq<Event>, name: bytes, result: DnsResult, atMs: int)
    requires Agrees(table, history) && |table| < CAPACITY
    ensures Agrees(table[name := EntryOf(result, atMs)], history + [Stored(name, result, atMs)])
  {
    var e := Stored(name, result, atMs);
    forall n ensures Latest(history + [e], n) == if name == n then Some(e) else Latest(history, n) {
      LatestSnoc(history, e, n);
    }
  }

  /** The result last stored under a name, if it has not been evicted and has not expired. */
  function Remembered(history: seq<Event>, name: bytes, nowMs: int): Option<DnsResult> {
    match Latest(history, name)
    case Some(Stored(_, result, atMs)) => if nowMs < atMs + Lifetime(result) * 1000 then Some(result) else None
    case _ => None
  }

  class DnsClient {
    var cache: Table
    ghost var history: seq<Event>

    ghost predicate Valid()
      reads this
    {
      Agrees(cache, history)
    }

    constructor ()
      ensures Valid() && history == []
    {
      cache := map[];
      history := [];
    }

    /** A hit is exactly the last result stored for the folded name, while it lives. */
    method TryGetCached(domain: bytes, nowMs: int) returns (r: Option<Option<bytes>>)
      requires Valid()
      ensures r == match Remembered(history, Fold(domain), nowMs)
                   case Some(result) => if domain == [] then None else Some(result.address)
                   case None => None
    {
      if domain == [] { return None; }
      var name := Fold(domain);
      if name !in cache || cache[name].expiryMs <= nowMs { return None; }
      if cache[name].negative { return Some(None); }
      return Some(cache[name].address);
    }

    /**
     Stores a network result; a full table first loses EVICTED entries of its own choosing.
     The last event is the insertion, and everything else that happened is an eviction.
     */
    method Cache(domain: bytes, result: DnsResult, nowMs: int)
      requires Valid()
      modifies this
      ensures Valid()
      ensures !result.fromNetwork || domain == [] ==> cache == old(cache) && history == old(history)
      ensures result.fromNetwork && domain != [] ==>
                && |history| > |old(history)| && old(history) <= history
                && history[|history| - 1] == Stored(Fold(domain), result, nowMs)
                && (forall i :: |old(history)| <= i < |history| - 1 ==> history[i].Evicted?)
                && |history| - 1 == |old(history)| + if |old(cache)| >= CAPACITY then EVICTED else 0
    {
      if !result.fromNetwork { return; }
      if domain == [] { return; }
      var name := Fold(domain);
      if |cache| >= CAPACITY {
        var dropped := 0;
        while cache != map[] && dropped < EVICTED
          invariant 0 <= dropped <= EVICTED
          invariant Valid()
          invariant |history| == |old(history)| + dropped && old(history) <= history
          invariant forall i :: |old(history)| <= i < |history| ==> history[i].Evicted?
          invariant |cache| == |old(cache)| - dropped
        {
          var victim :| victim in cache;
          EvictAgrees(cache, history, victim);
          RemoveOne(cache, victim);
          cache := cache - {victim};
          history := history + [Evicted(victim)];
          dropped := dropped + 1;
        }
      }
      var ttl: int := if result.ttl > 0 then result.ttl else 30;
      if result.address.None? { ttl := 5; }
      StoreAgrees(cache, history, name, result, nowMs);
      cache := cache[name := Entry(result.address, nowMs + ttl * 1000, result.address.None?)];
      history := history + [Stored(name, result, nowMs)];
    }
  }

  lemma RemoveOne(t: Table, k: bytes)
    requires k in t
    ensures |t - {k}| == |t| - 1
  {
    assert (t - {k}).Keys == t.Keys - {k};
    assert |t.Keys - {k}| == |t.Keys| - 1;
  }

  // ----- What the history promises over whole runs

  /** A store is remembered until its deadline, whatever is stored or evicted under other names. */
  lemma {:induction false} RememberedUntil(before: seq<Event>, name: bytes, result: DnsResult, atMs: int, later: seq<Event>, nowMs: int)
    requires forall i :: 0 <= i < |later| ==> later[i].name != name
    ensures Remembered(before + [Stored(name, result, atMs)] + later, name, nowMs)
            == if nowMs < atMs + Lifetime(result) * 1000 then Some(result) else None
    decreases |later|
  {
    var e := Stored(name, result, atMs);
    if later == [] {
      assert before + [e] + later == before + [e];
      LatestSnoc(before, e, name);
    } else {
      var last := later[|later| - 1];
      var init := later[..|later| - 1];
      assert before + [e] + later == (before + [e] + init) + [last];
      LatestSnoc(before + [e] + init, last, name);
      RememberedUntil(before, name, result, atMs, init, nowMs);
    }
  }

  /** Nothing else is ever remembered: a hit names the store that it comes from. */
  lemma {:induction false} RememberedFrom(history: seq<Event>, name: bytes, nowMs: int) returns (k: nat)
    requires Remembered(history, name, nowMs).Some?
    ensures k < |history| && history[k].Stored? && history[k].name == name
    ensures Remembered(history, name, nowMs) == Some(history[k].result)
    ensures nowMs < history[k].atMs + Lifetime(history[k].result) * 1000
    ensures forall i :: k < i < |history| ==> history[i].name != name
  {
    var last := |history| - 1;
    if history[last].name == name {
      k := last;
    } else {
      k := RememberedFrom(history[..last], name, nowMs);
    }
  }

  // ----- Told without folding and lifetimes

  predicate SameLetter(x: byte, y: byte) {
    x == y || (65 <= x <= 90 && y == x + 32) || (65 <= y <= 90 && x == y + 32)
  }

  /** The names differ at most in the case of their letters. */
  predicate SameName(a: bytes, b: bytes) {
    |a| == |b| && forall i :: 0 <= i < |a| ==> SameLetter(a[i], b[i])
  }

  lemma FoldExactly(a: bytes, b: bytes)
    ensures Fold(a) == Fold(b) <==> SameName(a, b)
  {
    if Fold(a) == Fold(b) {
      forall i | 0 <= i < |a| ensures SameLetter(a[i], b[i]) {
        assert Fold(a)[i] == Fold(b)[i];
      }
    }
  }

  /**
   What was stored under one name is found under another exactly while both are the same up to
   case and its time has not run out: five seconds for "no address", thirty for a TTL of zero, and
   the TTL otherwise.
   */
  lemma FoundExactly(before: seq<Event>, a: bytes, result: DnsResult, atMs: int, later: seq<Event>, b: bytes, nowMs: int)
    requires SameName(a, b) && forall i :: 0 <= i < |later| ==> later[i].name != Fold(a)
    ensures var found := Remembered(before + [Stored(Fold(a), result, atMs)] + later, Fold(b), nowMs);
            && (result.address.None? ==> found == if nowMs < atMs + 5_000 then Some(result) else None)
            && (result.address.Some? && result.ttl == 0 ==> found == if nowMs < atMs + 30_000 then Some(result) else None)
            && (result.address.Some? && result.ttl > 0 ==> found == if nowMs < atMs + result.ttl * 1_000 then Some(result) else None)
  {
    hide Remembered;
    FoldExactly(a, b);
    RememberedUntil(before, Fold(a), result, atMs, later, nowMs);
  }

  /** A name that differs in more than case does not see it. */
  lemma NotFoundElsewhere(history: seq<Event>, a: bytes, result: DnsResult, atMs: int, b: bytes, nowMs: int)
    requires !SameName(a, b)
    ensures Remembered(history + [Stored(Fold(a), result, atMs)], Fold(b), nowMs) == Remembered(history, Fold(b), nowMs)
  {
    FoldExactly(a, b);
    LatestSnoc(history, Stored(Fold(a), result, atMs), Fold(b));
  }
}
