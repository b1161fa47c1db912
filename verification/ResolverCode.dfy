/** The regions under the resolver's mutex, as the methods that update its fields. */
module ResolverCode {
  import opened Bytes
  import opened DnsNames
  import opened DnsMessages
  import opened Cycle
  import opened SendPump
  import opened DnsTable
  import opened DnsTableProofs
  import opened DnsResolver

  const IDS := 0x1_0000
  const SEQUENCE := 0x1_0000_0000
  const RANDOM_TRIES := 10000
  const MAX_SENDS := 4096

  predicate Begins(t: Table, q: Qid, timer: Option<TimerId>) {
    q in t.queries && WellFormedDomain(t.queries[q].domain) && timer.Some?
  }

  /** The table after an attempt was begun; one that failed has let its callbacks go. */
  function BegunTable(t: Table, q: Qid, timer: Option<TimerId>): Table
    requires q in t.queries
  {
    var u := BeginUdp(t, q, timer);
    if Begins(t, q, timer) then u else Put(u, q, u.queries[q].(calls := {}))
  }

  /** The callbacks handed back are those that the state machine tells that there is no answer. */
  ghost predicate Tells(c: Calls, d: Calls, told: set<nat>) {
    d == if told == {} then c else Answer(c, told, None)
  }

  /** A retry under this id is the state machine's: rekeyed, then begun. */
  ghost predicate Retries(s: State, q: Qid, id: u16, timer: Option<TimerId>, t: Table, told: set<nat>)
    requires q in s.t.queries
  {
    var u := Begin(s.(t := Rekey(s.t, q, id)), q, timer);
    t == u.t && Tells(s.calls, u.calls, told)
  }

  lemma BegunIs(s: State, q: Qid, timer: Option<TimerId>)
    requires q in s.t.queries
    ensures Begin(s, q, timer).t == BegunTable(s.t, q, timer)
    ensures Tells(s.calls, Begin(s, q, timer).calls, if Begins(s.t, q, timer) then {} else s.t.queries[q].calls)
  {
    hide BeginUdp, WellFormedDomain;
  }

  ghost function InUse(byId: map<u16, Qid>): set<nat> {
    (set i | i in byId :: i as nat) + {0}
  }

  lemma InUseSize(byId: map<u16, Qid>)
    ensures |InUse(byId)| <= |byId| + 1
  {
    var keys := set i | i in byId :: i as nat;
    assert keys == byId.Keys;
  }

  // ----- Stop's sweep

  ghost function Seen(t: Table, todo: set<u16>): set<Qid> {
    set i | i in t.byId && i !in todo :: t.byId[i]
  }

  ghost function CallsOf(t: Table, qs: set<Qid>): set<nat> {
    set q, c | q in qs && q in t.queries && c in t.queries[q].calls :: c
  }

  ghost function TimersOf(t: Table, qs: set<Qid>): set<TimerId> {
    set q | q in qs && q in t.queries && t.queries[q].timer.Some? :: t.queries[q].timer.value
  }

  /** The sweep has dealt with these queries so far. */
  ghost predicate Swept(t: Table, u: Table, done: set<Qid>) {
    SweptQueries(t, u.queries, done) && SweptTimers(t, u.timers, TimersOf(t, done))
  }

  ghost predicate SweptQueries(t: Table, queries: map<Qid, Query>, done: set<Qid>) {
    && queries.Keys == t.queries.Keys
    && forall q :: q in t.queries ==> queries[q] == if q in done then t.queries[q].(calls := {}, timer := None) else t.queries[q]
  }

  ghost predicate SweptTimers(t: Table, timers: map<TimerId, Timer>, own: set<TimerId>) {
    && (forall x :: x in timers <==> x in t.timers && (x !in own || t.timers[x].queued))
    && (forall x :: x in timers ==> timers[x] == t.timers[x])
  }

  lemma SweptNone(t: Table)
    ensures Swept(t, t, {}) && Seen(t, t.byId.Keys) == {} && CallsOf(t, {}) == {}
  {
  }

  lemma SweepOne(t: Table, u: Table, done: set<Qid>, todo: set<u16>, id: u16)
    requires Indexed(t) && id in todo && todo <= t.byId.Keys && done == Seen(t, todo) && Swept(t, u, done)
    ensures var q := t.byId[id];
            && q in u.queries && q !in done && Seen(t, todo - {id}) == done + {q}
            && CallsOf(t, done + {q}) == CallsOf(t, done) + t.queries[q].calls
            && var v := CancelTimer(u, q);
               && q in v.queries && v.queries[q].calls == t.queries[q].calls && v.byId == u.byId && v.byDomain == u.byDomain
               && v.used == u.used && v.discarded == u.discarded
               && Swept(t, Put(v, q, v.queries[q].(calls := {})), done + {q})
  {
    hide Indexed, Seen, Swept, CallsOf, CancelTimer;
    var q := t.byId[id];
    OneId(t, id);
    SeenOne(t, todo, id);
    SweptQuery(t, u, done, q);
    CancelQueries(u, q);
    CancelDiscards(u, q);
    SweepTimers(t, u, done, q);
    SweepCalls(t, done, q);
  }

  lemma OneId(t: Table, id: u16)
    requires Indexed(t) && id in t.byId
    ensures t.byId[id] in t.queries
    ensures forall j :: j in t.byId && t.byId[j] == t.byId[id] ==> j == id
  {
    assert IdOk(t, id);
    forall j | j in t.byId && t.byId[j] == t.byId[id] ensures j == id {
      assert IdOk(t, j);
    }
  }

  lemma SweptQuery(t: Table, u: Table, done: set<Qid>, q: Qid)
    requires Swept(t, u, done) && q in t.queries && q !in done
    ensures q in u.queries && u.queries[q] == t.queries[q]
  {
    hide TimersOf;
  }

  lemma CancelDiscards(t: Table, q: Qid)
    requires q in t.queries
    ensures CancelTimer(t, q).discarded == t.discarded
  {
  }

  lemma SeenOne(t: Table, todo: set<u16>, id: u16)
    requires id in todo && todo <= t.byId.Keys && forall j :: j in t.byId && t.byId[j] == t.byId[id] ==> j == id
    ensures Seen(t, todo - {id}) == Seen(t, todo) + {t.byId[id]} && t.byId[id] !in Seen(t, todo)
  {
  }

  lemma SweepCalls(t: Table, done: set<Qid>, q: Qid)
    requires q in t.queries
    ensures CallsOf(t, done + {q}) == CallsOf(t, done) + t.queries[q].calls
  {
  }

  lemma SweepTimers(t: Table, u: Table, done: set<Qid>, q: Qid)
    requires Swept(t, u, done) && q in t.queries && q !in done
    ensures var v := CancelTimer(u, q); Swept(t, Put(v, q, v.queries[q].(calls := {})), done + {q})
  {
    hide TimersOf, SweptTimers;
    SweepOwn(t, done, q);
    SweepOneTimer(t, u, TimersOf(t, done), q);
  }

  lemma SweepOwn(t: Table, done: set<Qid>, q: Qid)
    requires q in t.queries
    ensures var one := t.queries[q].timer;
            TimersOf(t, done + {q}) == TimersOf(t, done) + (if one.Some? then {one.value} else {})
  {
  }

  lemma SweepOneTimer(t: Table, u: Table, own: set<TimerId>, q: Qid)
    requires SweptTimers(t, u.timers, own) && q in u.queries
    ensures var one := u.queries[q].timer;
            SweptTimers(t, CancelTimer(u, q).timers, own + (if one.Some? then {one.value} else {}))
  {
  }

  lemma SweptAll(t: Table, u: Table, done: set<Qid>)
    requires Indexed(t) && done == Seen(t, {}) && Swept(t, u, done) && u.used == t.used && u.discarded == t.discarded
    ensures u.(byId := map[], byDomain := map[]) == Emptied(t)
    ensures CallsOf(t, done) == AllCalls(t)
  {
    assert done == t.byId.Values;
    forall i | i in t.byId ensures t.byId[i] in t.queries {
      assert IdOk(t, i);
    }
    hide Indexed, CallsOf, AllCalls, TimersOf, OwnTimers;
    AllSeen(t, done);
    AllOwn(t, done);
    hide Emptied;
    AllEmptied(t, u, done);
  }

  lemma AllEmptied(t: Table, u: Table, done: set<Qid>)
    requires done == t.byId.Values && SweptQueries(t, u.queries, done) && SweptTimers(t, u.timers, OwnTimers(t))
    ensures u.queries == Emptied(t).queries && u.timers == Emptied(t).timers
    ensures Emptied(t) == t.(queries := u.queries, timers := u.timers, byId := map[], byDomain := map[])
  {
    hide OwnTimers;
    assert u.queries == Emptied(t).queries;
    assert u.timers == Emptied(t).timers;
  }

  lemma AllOwn(t: Table, done: set<Qid>)
    requires done == t.byId.Values
    ensures TimersOf(t, done) == OwnTimers(t)
  {
  }

  lemma AllSeen(t: Table, done: set<Qid>)
    requires done == t.byId.Values
    ensures CallsOf(t, done) == AllCalls(t)
  {
    forall c: nat | c in CallsOf(t, done) ensures c in AllCalls(t) {
      var q :| q in done && q in t.queries && c in t.queries[q].calls;
      var i: u16 :| i in t.byId && t.byId[i] == q;
    }
    forall c: nat | c in AllCalls(t) ensures c in CallsOf(t, done) {
      var i: u16 :| i in t.byId && t.byId[i] in t.queries && c in t.queries[t.byId[i]].calls;
      assert t.byId[i] in done;
    }
  }

  /**
   All pending queries have given up exactly their callbacks, hold none any more, and no timer of theirs
   is left that was not claimed.
   */
  ghost predicate Forgotten(t: Table, u: Table, calls: set<nat>) {
    && (forall i, c :: i in t.byId && t.byId[i] in t.queries && c in t.queries[t.byId[i]].calls ==> c in calls)
    && (forall c :: c in calls ==> exists i :: i in t.byId && t.byId[i] in t.queries && c in t.queries[t.byId[i]].calls)
    && (forall i :: i in t.byId && t.byId[i] in t.queries ==>
          && t.byId[i] in u.queries && u.queries[t.byId[i]].calls == {}
          && (t.queries[t.byId[i]].timer.Some? && t.queries[t.byId[i]].timer.value in u.timers ==> u.timers[t.queries[t.byId[i]].timer.value].queued))
  }

  lemma EmptiedForgets(t: Table)
    ensures Forgotten(t, Emptied(t), AllCalls(t))
  {
    assert forall i :: i in t.byId ==> t.byId[i] in t.byId.Values;
  }

  class Resolver {
    var queries: map<Qid, Query>
    var byId: map<u16, Qid>
    var byDomain: map<bytes, Qid>
    /** What the completion port knows of the resolver's timers. */
    var timers: map<TimerId, Timer>
    var idSeq: u32
    /** The UDP sends; its `open` says whether there is a socket. */
    const pump: Pump<bytes>
    ghost var used: set<TimerId>
    ghost var discarded: set<TimerId>

    ghost function View(): Table
      reads this
    {
      Table(queries, byId, byDomain, timers, used, discarded)
    }

    constructor ()
      ensures View() == DnsTable.EMPTY && idSeq == 1 && fresh(pump) && pump.Valid() && pump.maxPending == MAX_SENDS
    {
      pump := new Pump(MAX_SENDS, (m: bytes) => m == []);
      queries, byId, byDomain, timers, idSeq := map[], map[], map[], map[], 1;
      used, discarded := {}, {};
    }

    /**
     First random numbers, then a sequence without end, which ends all the same: with at most
     4096 queries pending it meets a free number within 4098 steps, whatever the sequence starts at.
     */
    method AllocTxidLocked(random: seq<u16>) returns (id: u16)
      requires |random| == RANDOM_TRIES && |byId| <= MAX_QUERIES
      modifies this`idSeq
      ensures NewId(byId, id)
    {
      for i := 0 to RANDOM_TRIES {
        id := random[i];
        if id != 0 && id !in byId {
          return;
        }
      }
      hide Place, InUse;
      ghost var start: nat := idSeq;
      ghost var k := 0;
      ghost var taken := InUse(byId);
      InUseSize(byId);
      Next(start, 0);
      id := idSeq % IDS;
      idSeq := (idSeq + 1) % SEQUENCE;
      while id == 0 || id in byId
        invariant 0 <= k <= |taken| && idSeq == Place(start, k + 1, SEQUENCE)
        invariant id == Place(start, k, IDS)
        invariant forall j :: 0 <= j < k ==> Place(start, j, IDS) in taken
        decreases |taken| - k
      {
        Taken(byId, id);
        Covers(taken, start, k + 1, IDS);
        Next(start, k + 1);
        id := idSeq % IDS;
        idSeq := (idSeq + 1) % SEQUENCE;
        k := k + 1;
      }
    }

    method CancelTimerLocked(q: Qid)
      requires q in queries
      modifies this`queries, this`timers
      ensures View() == CancelTimer(old(View()), q)
      ensures q in queries && queries[q] == old(queries[q]).(timer := None)
      ensures var x := old(queries[q].timer);
              timers == if x.Some? && x.value in old(timers) && !old(timers)[x.value].queued then old(timers) - {x.value} else old(timers)
    {
      var x := queries[q];
      if x.timer.Some? {
        var i := x.timer.value;
        if i in timers && !timers[i].queued {
          timers := timers - {i};
        }
        queries := queries[q := x.(timer := None)];
      }
    }

    /** `timer` is the id the port schedules under, or None if it refuses. */
    method ArmTimerLocked(q: Qid, timer: Option<TimerId>) returns (ok: bool)
      requires q in queries
      modifies this`queries, this`timers, this`used
      ensures View() == Arm(old(View()), q, timer) && ok == timer.Some? && q in queries
      ensures queries[q] == old(queries[q]).(timer := timer)
      ensures ok ==> timer.value in timers && timers[timer.value] == Timer(queries[q].txid, false)
    {
      CancelTimerLocked(q);
      ok := timer.Some?;
      if ok {
        queries := queries[q := queries[q].(timer := timer)];
        timers := timers[timer.value := Timer(queries[q].txid, false)];
        used := used + {timer.value};
      }
    }

    method Erase(q: Qid)
      requires q in queries
      modifies this`byId, this`byDomain
      ensures View() == Unregister(old(View()), q)
    {
      byId := byId - {queries[q].txid};
      byDomain := byDomain - {queries[q].domain};
    }

    /** A printed query joins the sends, if there is a socket and room. */
    method EnqueueUdpSendLocked(message: bytes, posts: nat -> bool)
      requires pump.Valid()
      modifies pump
      ensures pump.Valid() && pump.open == old(pump.open)
      ensures pump.accepted == if old(pump.open) && |old(pump.pending)| < pump.maxPending then old(pump.accepted) + [message] else old(pump.accepted)
    {
      if pump.open {
        var taken := pump.Enqueue(message, posts);
      }
    }

    /**
     Prints the query, arms its timer and queues it for sending. On failure the query is erased and
     its callbacks are handed back, to be told that there is no answer.
     */
    method BeginUdpQueryLocked(q: Qid, timer: Option<TimerId>, posts: nat -> bool, ghost s: State) returns (told: set<nat>)
      requires q in queries && queries[q].qtype < 0x1_0000 && pump.Valid() && s.t == View()
      modifies this`queries, this`timers, this`used, this`byId, this`byDomain, pump
      ensures pump.Valid() && View() == Begin(s, q, timer).t && Tells(s.calls, Begin(s, q, timer).calls, told)
      ensures told == if Begins(old(View()), q, timer) then {} else old(queries[q].calls)
      ensures var x := old(queries[q]);
              pump.accepted == if Begins(old(View()), q, timer) && old(pump.open) && |old(pump.pending)| < pump.maxPending
                               then old(pump.accepted) + [DnsMessages.Query(x.domain, x.txid, x.qtype)] else old(pump.accepted)
    {
      hide WellFormedDomain, DnsMessages.Query, Arm, Unregister;
      BegunIs(s, q, timer);
      hide Begin, Tells;
      queries := queries[q := TriedUdp(queries[q])];
      told := {};
      var message := BuildQuery(queries[q].domain, queries[q].txid, queries[q].qtype);
      var armed := false;
      if message.Some? {
        armed := ArmTimerLocked(q, timer);
        ArmKeeps(old(View()), q, timer);
      }
      if armed {
        EnqueueUdpSendLocked(message.value, posts);
      } else {
        UnregisterKeeps(View(), q);
        Erase(q);
        told := queries[q].calls;
        queries := queries[q := queries[q].(calls := {})];
      }
    }

    method RetryUdpQueryLocked(q: Qid, random: seq<u16>, timer: Option<TimerId>, posts: nat -> bool, ghost s: State) returns (told: set<nat>)
      requires Indexed(View()) && Live(View(), q) && queries[q].qtype < 0x1_0000 && |random| == RANDOM_TRIES && pump.Valid() && s.t == View()
      modifies this, pump
      ensures pump.Valid() && told == if Begins(old(View()), q, timer) then {} else old(queries[q].calls)
      ensures exists id: u16 :: NewId(old(byId) - {old(queries[q].txid)}, id) && Retries(s, q, id, timer, View(), told)
    {
      hide Begin, Tells, Indexed, WellFormedDomain, DnsMessages.Query;
      ghost var was := View();
      SizeSmaller(byId, queries[q].txid);
      assert |byId| <= MAX_QUERIES by { IndexedSize(was); }
      byId := byId - {queries[q].txid};
      var id := AllocTxidLocked(random);
      queries := queries[q := queries[q].(txid := id)];
      byId := byId[id := q];
      assert View() == Rekey(was, q, id);
      told := BeginUdpQueryLocked(q, timer, posts, s.(t := Rekey(was, q, id)));
      assert Retries(s, q, id, timer, View(), told);
    }

    /**
     Stop's sweep over the index by id: every timer that can be is cancelled, and all callbacks
     of all pending queries are handed to the caller.
     */
    method CollectLocked() returns (calls: set<nat>)
      requires Indexed(View())
      modifies this`queries, this`timers, this`byId, this`byDomain
      ensures View() == Emptied(old(View())) && calls == AllCalls(old(View()))
      ensures byId == map[] && byDomain == map[] && Forgotten(old(View()), View(), calls)
    {
      hide Indexed, Emptied, AllCalls, CancelTimer;
      ghost var was := View();
      ghost var done: set<Qid> := {};
      var todo := byId.Keys;
      calls := {};
      SweptNone(was);
      while todo != {}
        invariant byId == was.byId && byDomain == was.byDomain && used == was.used && discarded == was.discarded
        invariant todo <= byId.Keys && done == Seen(was, todo)
        invariant Swept(was, View(), done) && calls == CallsOf(was, done)
        decreases |todo|
      {
        var id :| id in todo;
        var q := byId[id];
        SweepOne(was, View(), done, todo, id);
        CancelTimerLocked(q);
        calls := calls + queries[q].calls;
        queries := queries[q := queries[q].(calls := {})];
        todo := todo - {id};
        done := done + {q};
      }
      SweptAll(was, View(), done);
      byId, byDomain := map[], map[];
      EmptiedForgets(was);
    }

    /** Takes a finished query out of both indexes and hands its callbacks to the caller. */
    method FinishLocked(q: Qid) returns (calls: set<nat>)
      requires q in queries
      modifies this`queries, this`timers, this`byId, this`byDomain
      ensures calls == old(queries[q].calls)
      ensures var u := Unregister(CancelTimer(old(View()), q), q); View() == Put(u, q, u.queries[q].(calls := {}))
    {
      CancelTimerLocked(q);
      Erase(q);
      calls := queries[q].calls;
      queries := queries[q := queries[q].(calls := {})];
    }
  }

  /** The sequence counts round 32 bits, its low 16 bits round the ids. */
  lemma Next(start: nat, k: nat)
    ensures Place(start, k, SEQUENCE) % IDS == Place(start, k, IDS)
    ensures (Place(start, k, SEQUENCE) + 1) % SEQUENCE == Place(start, k + 1, SEQUENCE)
    ensures start < SEQUENCE ==> Place(start, 0, SEQUENCE) == start
  {
  }

  lemma Taken(byId: map<u16, Qid>, id: u16)
    requires id == 0 || id in byId
    ensures id in InUse(byId)
  {
  }

  lemma ArmKeeps(t: Table, q: Qid, timer: Option<TimerId>)
    requires q in t.queries
    ensures var u := Put(t, q, TriedUdp(t.queries[q]));
            q in Arm(u, q, timer).queries && Arm(u, q, timer).queries[q].calls == t.queries[q].calls
  {
  }

  lemma UnregisterKeeps(t: Table, q: Qid)
    requires q in t.queries
    ensures Unregister(t, q).queries == t.queries
  {
  }

  lemma SizeSmaller<K, V>(m: map<K, V>, k: K)
    ensures |m - {k}| <= |m|
  {
    assert (m - {k}).Keys == m.Keys - {k};
  }

  lemma IndexedSize(t: Table)
    requires Indexed(t)
    ensures |t.byId| <= MAX_QUERIES
  {
  }
}
