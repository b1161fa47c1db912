/** What every step of the resolver keeps. */
module DnsResolverProofs {
  import opened Bytes
  import opened DnsNames
  import opened DnsMessages
  import opened DnsTable
  import opened DnsTableProofs
  import opened DnsResolver

  // ----- The invariants

  /** A pending query is within its budget, can be printed, and somebody waits for it. */
  predicate Fit(x: Query) {
    Within(x) && WellFormedDomain(x.domain) && 1 <= |x.calls| <= MAX_CALLBACKS
  }

  ghost predicate Sound(t: Table) {
    Indexed(t) && Clock(t) && forall q :: Live(t, q) ==> Fit(t.queries[q])
  }

  ghost predicate Named(tasks: seq<Task>, q: Qid) {
    exists k :: k in tasks && k.q == q
  }

  /** Every pending query is watched by its timer, unless the handler at work is about to deal with it. */
  ghost predicate Watch(t: Table, tasks: seq<Task>) {
    forall q :: Live(t, q) && !Named(tasks, q) ==> Watched(t, q)
  }

  ghost predicate TaskOk(t: Table, k: Task) {
    && Live(t, k.q)
    && var x := t.queries[k.q];
       match k
       case Retry(_, id) => x.txid == id && !x.viaTcp && x.attempts < MAX_UDP_ATTEMPTS
       case Aaaa(_, id) => x.txid == id && x.qtype == TYPE_A && x.tryAAAA
       case Tcp(_) => !x.viaTcp
       case TcpStart(_) => Watched(t, k.q)
       case Finish(_, _) => true
  }

  ghost predicate Queue(t: Table, tasks: seq<Task>) {
    && (forall k :: k in tasks ==> TaskOk(t, k))
    && forall i, j :: 0 <= i < j < |tasks| ==> tasks[i].q != tasks[j].q
  }

  function Waits(t: Table, q: Qid): set<nat> {
    if Live(t, q) then t.queries[q].calls else {}
  }

  ghost predicate Somewhere(t: Table, c: Calls, firing: set<nat>, i: nat) {
    i in c.answers || i in firing || (i in c.home && i in Waits(t, c.home[i]))
  }

  ghost predicate AtHome(c: Calls, firing: set<nat>, q: Qid, i: nat) {
    i < c.next && i !in c.answers && i !in firing && i in c.home && c.home[i] == q
  }

  /** Every callback waits with one pending query, is about to be called, or was called once. */
  ghost predicate Placed(t: Table, c: Calls, firing: set<nat>) {
    && (forall i: nat :: i < c.next ==> Somewhere(t, c, firing, i))
    && (forall q: Qid, i: nat :: i in Waits(t, q) ==> AtHome(c, firing, q, i))
    && (forall i: nat :: i in firing ==> i < c.next && i !in c.answers)
    && (forall i: nat :: i in c.answers ==> i < c.next)
    && !c.twice
  }

  ghost predicate Life(s: State) {
    && (!s.stop.NotStopping? ==> s.stopping && s.started && !s.starting)
    && (s.stop.Collecting? ==> Idle(s))
    && (s.stop.Answering? || s.stop.Unlocked? ==> s.t.byId == map[])
    && (s.stop.Unlocked? ==> s.firing == {})
    && (s.starting ==> s.started)
  }

  ghost predicate Inv(s: State) {
    Sound(s.t) && Watch(s.t, s.tasks) && Queue(s.t, s.tasks) && Placed(s.t, s.calls, s.firing) && Life(s)
  }

  // ----- One query changes, the others do not

  lemma SoundOthers(t: Table, u: Table, q: Qid)
    requires Sound(t) && Indexed(u) && Clock(u) && Others(t, u, q) && (Live(u, q) ==> Fit(u.queries[q]))
    ensures Sound(u)
  {
    hide Indexed, Clock, Fit, Watched, Live;
    LiveKnown(u);
    LiveKnown(t);
    assert forall r :: Live(u, r) && r != q ==> Live(t, r) && u.queries[r] == t.queries[r];
  }

  lemma QueueOthers(t: Table, u: Table, q: Qid, tasks: seq<Task>)
    requires Queue(t, tasks) && Others(t, u, q) && !Named(tasks, q)
    ensures Queue(u, tasks)
  {
    hide Watched, Live;
    LiveKnown(t);
    forall k | k in tasks ensures TaskOk(u, k) {
      assert k.q != q;
      assert TaskOk(t, k);
      assert Live(u, k.q) && u.queries[k.q] == t.queries[k.q];
    }
  }

  lemma SameNamed(tasks: seq<Task>, more: seq<Task>, q: Qid)
    requires tasks != [] && tasks[0].q == q && more == tasks[1..]
    ensures forall r :: r != q && Named(tasks, r) ==> Named(more, r)
  {
    forall r | r != q && Named(tasks, r) ensures Named(more, r) {
      var k :| k in tasks && k.q == r;
      var i :| 0 <= i < |tasks| && tasks[i] == k;
      assert more[i - 1] == k;
    }
  }

  lemma FirstAlone(t: Table, tasks: seq<Task>)
    requires Queue(t, tasks) && tasks != []
    ensures !Named(tasks[1..], tasks[0].q) && Queue(t, tasks[1..])
  {
    hide TaskOk;
    var more := tasks[1..];
    assert forall k :: k in more ==> k in tasks;
    assert forall i :: 0 <= i < |more| ==> more[i] == tasks[i + 1];
  }

  // ----- Callbacks

  lemma AnswerShape(c: Calls, ids: set<nat>, a: Option<bytes>)
    ensures var d := Answer(c, ids, a);
            && d.next == c.next && d.home == c.home && d.answers.Keys == c.answers.Keys + ids
            && (d.twice <==> c.twice || !(ids !! c.answers.Keys))
  {
    var d := Answer(c, ids, a);
    assert d.answers.Keys == c.answers.Keys + ids;
    if i :| i in ids && i in c.answers {
      assert i in ids * c.answers.Keys;
    }
  }

  lemma HomeOf(t: Table, c: Calls, firing: set<nat>, q: Qid, i: nat)
    requires Placed(t, c, firing) && i in Waits(t, q)
    ensures i < c.next && i !in c.answers && i !in firing && i in c.home && c.home[i] == q
  {
    hide Waits;
    assert AtHome(c, firing, q, i);
  }

  lemma SamePlaced(t: Table, u: Table, c: Calls, firing: set<nat>)
    requires Placed(t, c, firing) && forall q :: Waits(u, q) == Waits(t, q)
    ensures Placed(u, c, firing)
  {
    hide Waits, AtHome;
    forall i: nat | i < c.next ensures Somewhere(u, c, firing, i) {
      assert Somewhere(t, c, firing, i);
    }
    forall q: Qid, i: nat | i in Waits(u, q) ensures AtHome(c, firing, q, i) {
      assert i in Waits(t, q);
    }
  }

  lemma OtherWaits(t: Table, u: Table, q: Qid)
    requires Others(t, u, q)
    ensures forall r :: r != q ==> Waits(u, r) == Waits(t, r)
  {
    hide Watched;
  }

  lemma JoinPlaced(t: Table, u: Table, c: Calls, firing: set<nat>, q: Qid)
    requires Placed(t, c, firing) && Waits(u, q) == Waits(t, q) + {c.next} && forall r :: r != q ==> Waits(u, r) == Waits(t, r)
    ensures Placed(u, c.(next := c.next + 1, home := c.home[c.next := q]), firing)
  {
    hide Waits;
    var d := c.(next := c.next + 1, home := c.home[c.next := q]);
    forall i: nat | i < d.next ensures Somewhere(u, d, firing, i) {
      assert i < c.next ==> Somewhere(t, c, firing, i);
    }
    forall r: Qid, i: nat | i in Waits(u, r) ensures AtHome(d, firing, r, i) {
      if i != c.next {
        assert i in Waits(t, r);
        HomeOf(t, c, firing, r, i);
      } else {
        assert r == q by {
          if i in Waits(t, r) {
            HomeOf(t, c, firing, r, i);
          }
        }
      }
    }
  }

  lemma AtOncePlaced(t: Table, c: Calls, firing: set<nat>, a: Option<bytes>)
    requires Placed(t, c, firing)
    ensures Placed(t, Answer(c.(next := c.next + 1), {c.next}, a), firing)
  {
    hide Waits, Answer;
    var d := Answer(c.(next := c.next + 1), {c.next}, a);
    AnswerShape(c.(next := c.next + 1), {c.next}, a);
    forall i: nat | i < d.next ensures Somewhere(t, d, firing, i) {
      assert i < c.next ==> Somewhere(t, c, firing, i);
    }
    forall r: Qid, i: nat | i in Waits(t, r) ensures AtHome(d, firing, r, i) {
      HomeOf(t, c, firing, r, i);
    }
  }

  /** The callbacks of one query are told, and it lets them go. */
  lemma AnswerPlaced(t: Table, u: Table, c: Calls, firing: set<nat>, q: Qid, a: Option<bytes>)
    requires Placed(t, c, firing) && Waits(u, q) == {} && forall r :: r != q ==> Waits(u, r) == Waits(t, r)
    ensures Placed(u, Answer(c, Waits(t, q), a), firing)
  {
    hide Waits, Answer;
    var d := Answer(c, Waits(t, q), a);
    AnswerShape(c, Waits(t, q), a);
    forall i: nat | i < d.next ensures Somewhere(u, d, firing, i) {
      assert Somewhere(t, c, firing, i);
    }
    forall i: nat | i in Waits(t, q) ensures AtHome(c, firing, q, i) {
      HomeOf(t, c, firing, q, i);
    }
    forall r: Qid, i: nat | i in Waits(u, r) ensures AtHome(d, firing, r, i) {
      HomeOf(t, c, firing, r, i);
    }
  }

  lemma FinishPlaced(t: Table, u: Table, c: Calls, q: Qid)
    requires Placed(t, c, {}) && Waits(u, q) == {} && forall r :: r != q ==> Waits(u, r) == Waits(t, r)
    ensures Placed(u, c, Waits(t, q))
  {
    hide Waits;
    forall i: nat | i < c.next ensures Somewhere(u, c, Waits(t, q), i) {
      assert Somewhere(t, c, {}, i);
    }
    forall i: nat | i in Waits(t, q) ensures AtHome(c, {}, q, i) {
      HomeOf(t, c, {}, q, i);
    }
    forall r: Qid, i: nat | i in Waits(u, r) ensures AtHome(c, Waits(t, q), r, i) {
      HomeOf(t, c, {}, r, i);
    }
  }

  lemma FirePlaced(t: Table, c: Calls, firing: set<nat>, i: nat, a: Option<bytes>)
    requires Placed(t, c, firing) && i in firing
    ensures Placed(t, Answer(c, {i}, a), firing - {i})
  {
    hide Waits, Answer;
    var d := Answer(c, {i}, a);
    AnswerShape(c, {i}, a);
    forall j: nat | j < c.next ensures Somewhere(t, d, firing - {i}, j) {
      assert Somewhere(t, c, firing, j);
    }
    forall r: Qid, j: nat | j in Waits(t, r) ensures AtHome(d, firing - {i}, r, j) {
      HomeOf(t, c, firing, r, j);
    }
  }

  // ----- ResolveAsync

  /** The parts of the invariant other than the callbacks and the life cycle. */
  ghost predicate Orderly(t: Table, tasks: seq<Task>) {
    Sound(t) && Watch(t, tasks) && Queue(t, tasks)
  }

  /** Orderly but for one query, which no task names. */
  ghost predicate Nearly(t: Table, tasks: seq<Task>, q: Qid) {
    && Sound(t) && Queue(t, tasks) && !Named(tasks, q)
    && forall r :: r != q && Live(t, r) && !Named(tasks, r) ==> Watched(t, r)
  }

  lemma OrderlyNearly(t: Table, tasks: seq<Task>, q: Qid)
    requires Orderly(t, tasks) && !Named(tasks, q)
    ensures Nearly(t, tasks, q)
  {
    hide Sound, Queue, Named, Live, Watched;
  }

  lemma HeadNearly(t: Table, tasks: seq<Task>)
    requires Orderly(t, tasks) && tasks != []
    ensures Nearly(t, tasks[1..], tasks[0].q) && TaskOk(t, tasks[0]) && Live(t, tasks[0].q) && Fit(t.queries[tasks[0].q])
  {
    var q := tasks[0].q;
    assert TaskOk(t, tasks[0]);
    hide Indexed, Clock, Named, Watched, Fit;
    FirstAlone(t, tasks);
    SameNamed(tasks, tasks[1..], q);
  }

  lemma OrderlyOthers(t: Table, u: Table, q: Qid, tasks: seq<Task>)
    requires Nearly(t, tasks, q) && Indexed(u) && Clock(u) && Others(t, u, q)
    requires Live(u, q) ==> Fit(u.queries[q]) && Watched(u, q)
    ensures Orderly(u, tasks)
  {
    hide Indexed, Clock, Sound, Queue, Named, Fit, Live, Watched;
    SoundOthers(t, u, q);
    QueueOthers(t, u, q, tasks);
  }

  /** The same when a new task for the query comes first. */
  lemma OrderlyFirst(t: Table, u: Table, k: Task, tasks: seq<Task>)
    requires Nearly(t, tasks, k.q) && Indexed(u) && Clock(u) && Others(t, u, k.q) && TaskOk(u, k) && Fit(u.queries[k.q])
    ensures Orderly(u, [k] + tasks)
  {
    hide Indexed, Clock, Sound, Fit, Live, Watched, TaskOk;
    SoundOthers(t, u, k.q);
    QueueOthers(t, u, k.q, tasks);
    FirstNamed(k, tasks);
    FirstQueue(u, k, tasks);
  }

  lemma FirstNamed(k: Task, tasks: seq<Task>)
    ensures forall q :: Named([k] + tasks, q) <==> q == k.q || Named(tasks, q)
  {
    forall q ensures Named([k] + tasks, q) <==> q == k.q || Named(tasks, q) {
      if Named(tasks, q) {
        var j :| j in tasks && j.q == q;
        assert j in [k] + tasks;
      }
      assert k in [k] + tasks;
    }
  }

  lemma FirstQueue(t: Table, k: Task, tasks: seq<Task>)
    requires Queue(t, tasks) && TaskOk(t, k) && !Named(tasks, k.q)
    ensures Queue(t, [k] + tasks)
  {
    hide TaskOk;
    var more := [k] + tasks;
    forall i, j | 0 <= i < j < |more| ensures more[i].q != more[j].q {
      assert more[j] == tasks[j - 1] && tasks[j - 1] in tasks;
      if i > 0 {
        assert more[i] == tasks[i - 1];
      }
    }
  }

  lemma NotNamed(t: Table, tasks: seq<Task>, q: Qid)
    requires Queue(t, tasks) && q !in t.queries
    ensures !Named(tasks, q)
  {
    hide Watched;
    assert forall k :: k in tasks ==> TaskOk(t, k);
  }

  /** A query joined by another callback. */
  lemma JoinOrderly(t: Table, q: Qid, x: Query, tasks: seq<Task>)
    requires Orderly(t, tasks) && Live(t, q) && x == t.queries[q].(calls := x.calls) && 1 <= |x.calls| <= MAX_CALLBACKS
    ensures Orderly(Put(t, q, x), tasks)
  {
    hide Sound, Queue, Watch, Live;
    LiveKnown(t);
    JoinSound(t, q, x);
    JoinWatch(t, q, x, tasks);
    JoinQueue(t, q, x, tasks);
  }

  lemma JoinSound(t: Table, q: Qid, x: Query)
    requires Sound(t) && Live(t, q) && x == t.queries[q].(calls := x.calls) && 1 <= |x.calls| <= MAX_CALLBACKS
    ensures Sound(Put(t, q, x))
  {
    hide Indexed, Clock, Others, Within, WellFormedDomain;
    assert Fit(t.queries[q]);
    assert Fit(x) by { SameWithin(t.queries[q], x); }
    PutOthers(t, q, x);
    SoundOthers(t, Put(t, q, x), q);
  }

  lemma SameWithin(x: Query, y: Query)
    requires y == x.(calls := y.calls)
    ensures Within(y) == Within(x)
  {
  }

  lemma JoinWatch(t: Table, q: Qid, x: Query, tasks: seq<Task>)
    requires Watch(t, tasks) && Live(t, q) && x == t.queries[q].(calls := x.calls)
    ensures Watch(Put(t, q, x), tasks)
  {
    hide Named;
    var u := Put(t, q, x);
    forall r ensures Live(u, r) == Live(t, r) && Watched(u, r) == Watched(t, r) {
    }
  }

  lemma JoinQueue(t: Table, q: Qid, x: Query, tasks: seq<Task>)
    requires Queue(t, tasks) && Live(t, q) && x == t.queries[q].(calls := x.calls)
    ensures Queue(Put(t, q, x), tasks)
  {
    var u := Put(t, q, x);
    forall k | k in tasks ensures TaskOk(u, k) {
      assert TaskOk(t, k);
    }
  }

  lemma DomainLive(t: Table, tasks: seq<Task>, d: bytes)
    requires Orderly(t, tasks) && d in t.byDomain
    ensures Live(t, t.byDomain[d]) && 1 <= |t.queries[t.byDomain[d]].calls|
  {
    hide Clock, Watch, Queue, Within, WellFormedDomain;
    assert DomainOk(t, d);
    assert Fit(t.queries[t.byDomain[d]]);
  }

  lemma JoinParts(s: State, d: bytes)
    requires Orderly(s.t, s.tasks) && Placed(s.t, s.calls, s.firing) && d in s.t.byDomain && s.t.byDomain[d] in s.t.queries
    ensures var u := Attach(s, d); Orderly(u.t, s.tasks) && Placed(u.t, u.calls, s.firing)
  {
    hide Orderly, Placed, Live, Waits;
    var q := s.t.byDomain[d];
    DomainLive(s.t, s.tasks, d);
    if |s.t.queries[q].calls| >= MAX_CALLBACKS {
      AtOncePlaced(s.t, s.calls, s.firing, None);
    } else {
      var x := s.t.queries[q].(calls := s.t.queries[q].calls + {s.calls.next});
      JoinOrderly(s.t, q, x, s.tasks);
      JoinWaits(s.t, q, x);
      JoinPlaced(s.t, Put(s.t, q, x), s.calls, s.firing, q);
    }
  }

  lemma JoinWaits(t: Table, q: Qid, x: Query)
    requires Live(t, q) && x == t.queries[q].(calls := x.calls)
    ensures Waits(Put(t, q, x), q) == x.calls && Waits(t, q) == t.queries[q].calls
    ensures forall r :: r != q ==> Waits(Put(t, q, x), r) == Waits(t, r)
  {
  }

  /** A query begins an attempt: it is pending and watched, or its callbacks were told. */
  lemma BeginInv(s: State, q: Qid, timer: Option<TimerId>, before: Table)
    requires Indexed(s.t) && Clock(s.t) && Live(s.t, q) && Others(before, s.t, q) && Nearly(before, s.tasks, q)
    requires Placed(s.t, s.calls, s.firing) && NewTimer(s.t, timer)
    requires WellFormedDomain(s.t.queries[q].domain) && timer.Some? ==> Fit(TriedUdp(s.t.queries[q]).(timer := timer))
    ensures Orderly(Begin(s, q, timer).t, s.tasks) && Placed(Begin(s, q, timer).t, Begin(s, q, timer).calls, s.firing)
  {
    hide Indexed, Clock, Orderly, Nearly, Named, Placed, WellFormedDomain, Fit, Watched, Others, BeginUdp, TriedUdp;
    var u := BeginUdp(s.t, q, timer);
    BeginOthers(s.t, q, timer);
    OthersAll(before, s.t, u, q);
    if WellFormedDomain(s.t.queries[q].domain) && timer.Some? {
      OrderlyOthers(before, u, q, s.tasks);
      OtherWaits(s.t, u, q);
      assert Waits(u, q) == Waits(s.t, q) by { TriedCalls(s.t.queries[q]); }
      SamePlaced(s.t, u, s.calls, s.firing);
    } else {
      EmptyInv(s, u, q, before);
    }
  }

  lemma TriedCalls(x: Query)
    ensures TriedUdp(x).calls == x.calls && TriedTcp(x).calls == x.calls
  {
  }

  lemma EmptyInv(s: State, u: Table, q: Qid, before: Table)
    requires Indexed(u) && Clock(u) && Live(s.t, q) && !Live(u, q) && q in u.queries && Others(s.t, u, q) && Others(before, u, q)
    requires Nearly(before, s.tasks, q) && Placed(s.t, s.calls, s.firing)
    ensures var v := Put(u, q, u.queries[q].(calls := {}));
            && Orderly(v, s.tasks) && Placed(v, Answer(s.calls, s.t.queries[q].calls, None), s.firing)
  {
    hide Indexed, Clock, Orderly, Nearly, Named, Placed, Fit, Watched, Others;
    var v := Put(u, q, u.queries[q].(calls := {}));
    PutOthers(u, q, u.queries[q].(calls := {}));
    OthersAll(s.t, u, v, q);
    OthersAll(before, u, v, q);
    OrderlyOthers(before, v, q, s.tasks);
    OtherWaits(s.t, v, q);
    AnswerPlaced(s.t, v, s.calls, s.firing, q, None);
  }

  // ----- The steps

  lemma OpenTable(t: Table, tasks: seq<Task>, q: Qid, x: Query)
    requires Orderly(t, tasks) && q !in t.queries && x.timer.None? && NewId(t.byId, x.txid) && x.domain !in t.byDomain && |t.byDomain| < MAX_QUERIES
    ensures var u := Register(t, q, x);
            && Indexed(u) && Clock(u) && Others(t, u, q) && Live(u, q) && !Named(tasks, q)
            && Waits(u, q) == Waits(t, q) + x.calls && forall r :: r != q ==> Waits(u, r) == Waits(t, r)
  {
    hide Indexed, Clock, Others, Watch, Named, Fit;
    NotNamed(t, tasks, q);
    RegisterOthers(t, q, x);
    OtherWaits(t, Register(t, q, x), q);
  }

  lemma OpenParts(s: State, d: bytes, q: Qid, id: u16, aaaa: bool, timer: Option<TimerId>)
    requires Orderly(s.t, s.tasks) && Placed(s.t, s.calls, s.firing) && q !in s.t.queries && NewId(s.t.byId, id) && NewTimer(s.t, timer)
    requires d !in s.t.byDomain && |s.t.byDomain| < MAX_QUERIES
    ensures var u := Begin(Open(s, d, q, id, aaaa), q, timer); Orderly(u.t, s.tasks) && Placed(u.t, u.calls, s.firing)
  {
    hide Orderly, Nearly, Placed, Fit, Live, Waits, Named, Begin, WellFormedDomain, Indexed, Clock, Others, TriedUdp;
    var x := Fresh(d, id, aaaa, s.calls.next);
    OpenTable(s.t, s.tasks, q, x);
    OrderlyNearly(s.t, s.tasks, q);
    var o := Open(s, d, q, id, aaaa);
    JoinPlaced(s.t, o.t, s.calls, s.firing, q);
    if WellFormedDomain(d) {
      FreshFit(d, id, aaaa, s.calls.next, timer);
    }
    BeginInv(o, q, timer, s.t);
  }

  lemma FreshFit(d: bytes, id: u16, aaaa: bool, call: nat, timer: Option<TimerId>)
    requires WellFormedDomain(d)
    ensures Fit(TriedUdp(Fresh(d, id, aaaa, call)).(timer := timer))
  {
  }

  ghost predicate Parts(s: State) {
    Orderly(s.t, s.tasks) && Placed(s.t, s.calls, s.firing)
  }

  lemma ResolveParts(s: State, d: bytes, q: Qid, id: u16, aaaa: bool, timer: Option<TimerId>)
    requires Parts(s) && q !in s.t.queries && NewId(s.t.byId, id) && NewTimer(s.t, timer)
    ensures Parts(Resolve(s, d, q, id, aaaa, timer))
  {
    hide Orderly, Placed, Attach, Begin, Open, Live;
    LiveKnown(s.t);
    AtOncePlaced(s.t, s.calls, s.firing, None);
    if s.stopping || !s.started {
    } else if d in s.t.byDomain {
      DomainLive(s.t, s.tasks, d);
      JoinParts(s, d);
      AttachTasks(s, d);
    } else if |s.t.byDomain| < MAX_QUERIES {
      OpenParts(s, d, q, id, aaaa, timer);
      BeginTasks(s, d, q, id, aaaa, timer);
    }
  }

  lemma AttachTasks(s: State, d: bytes)
    requires d in s.t.byDomain && s.t.byDomain[d] in s.t.queries
    ensures Attach(s, d).tasks == s.tasks && Attach(s, d).firing == s.firing
  {
  }

  lemma BeginTasks(s: State, d: bytes, q: Qid, id: u16, aaaa: bool, timer: Option<TimerId>)
    ensures var u := Begin(Open(s, d, q, id, aaaa), q, timer); u.tasks == s.tasks && u.firing == s.firing
  {
    hide BeginUdp, WellFormedDomain;
  }

  // ----- Results

  lemma DecideOk(t: Table, q: Qid, r: DnsResult, from: Source)
    requires Live(t, q) && (from.FromUdp? ==> !t.queries[q].viaTcp) && (from.FromTimer? ==> !r.truncated)
    ensures TaskOk(t, Decide(t.queries[q], q, r, from)) && Decide(t.queries[q], q, r, from).q == q
  {
    hide Watched;
  }

  /** The handler of a result takes the query's timer away and has one thing to do about it. */
  lemma HandleParts(t: Table, c: Calls, q: Qid, r: DnsResult, from: Source)
    requires Nearly(t, [], q) && Live(t, q) && Fit(t.queries[q]) && Placed(t, c, {})
    requires (from.FromUdp? ==> !t.queries[q].viaTcp) && (from.FromTimer? ==> !r.truncated)
    ensures var u := CancelTimer(t, q);
            Orderly(u, [Decide(t.queries[q], q, r, from)]) && Placed(u, c, {})
  {
    hide Orderly, Nearly, Indexed, Clock, Others, CancelTimer, TaskOk, Decide, Fit, Placed, Live, Waits;
    LiveKnown(t);
    var u := CancelTimer(t, q);
    var k := Decide(t.queries[q], q, r, from);
    NearlySound(t, [], q);
    CancelOthers(t, q);
    TimerApart(t.queries[q], q, r, from);
    DecideOk(u, q, r, from);
    assert [k] + [] == [k];
    OrderlyFirst(t, u, k, []);
    OtherWaits(t, u, q);
    CancelWaits(t, u, q);
    SamePlaced(t, u, c, {});
  }

  lemma CancelWaits(t: Table, u: Table, q: Qid)
    requires Live(t, q) && Live(u, q) && u.queries[q].calls == t.queries[q].calls
    ensures Waits(u, q) == Waits(t, q)
  {
  }

  lemma NearlySound(t: Table, tasks: seq<Task>, q: Qid)
    requires Nearly(t, tasks, q)
    ensures Indexed(t) && Clock(t)
  {
  }

  lemma TimerApart(x: Query, q: Qid, r: DnsResult, from: Source)
    ensures Decide(x.(timer := None), q, r, from) == Decide(x, q, r, from)
    ensures Fit(x) ==> Fit(x.(timer := None))
  {
  }

  lemma ResultParts(s: State, id: u16, r: DnsResult, from: Source)
    requires Parts(s) && Idle(s) && !from.FromTimer?
    ensures Parts(OnQueryResult(s, id, r, from))
  {
    hide Orderly, Placed, Decide, CancelTimer, Live, Fit, Nearly;
    if !Ignored(s.t, id, from) {
      var q := s.t.byId[id];
      IdLive(s.t, id);
      OrderlyNearly(s.t, [], q);
      HandleParts(s.t, s.calls, q, r, from);
    }
  }

  lemma IdLive(t: Table, id: u16)
    requires Orderly(t, []) && id in t.byId
    ensures Live(t, t.byId[id]) && Fit(t.queries[t.byId[id]])
  {
    hide Clock, Watch, Fit;
    assert IdOk(t, id);
  }

  /** A delivered timer leaves the table; the one query it may have watched is the one it names. */
  lemma DropTimer(t: Table, x: TimerId)
    requires Orderly(t, []) && x in t.timers
    ensures var u := t.(timers := t.timers - {x});
            && Sound(u) && Queue(u, [])
            && (forall r :: Live(u, r) && (t.timers[x].txid !in t.byId || r != t.byId[t.timers[x].txid]) ==> Watched(u, r))
            && (forall r :: Waits(u, r) == Waits(t, r))
  {
    hide Indexed, Clock, Watched, Live, Fit;
    var u := t.(timers := t.timers - {x});
    DropClock(t, x);
    SameIndexed(t, u);
    LiveKnown(t);
    assert Queue(u, []);
    forall r | Live(u, r) && (t.timers[x].txid !in t.byId || r != t.byId[t.timers[x].txid]) ensures Watched(u, r) {
      assert Live(t, r) && !Named([], r);
      DropWatched(t, x, r);
    }
    assert forall r :: Waits(u, r) == Waits(t, r);
  }

  lemma DropClock(t: Table, x: TimerId)
    requires Clock(t)
    ensures Clock(t.(timers := t.timers - {x}))
  {
  }

  lemma DropWatched(t: Table, x: TimerId, r: Qid)
    requires x in t.timers && Live(t, r) && Watched(t, r) && (t.timers[x].txid !in t.byId || r != t.byId[t.timers[x].txid])
    ensures Watched(t.(timers := t.timers - {x}), r)
  {
  }

  lemma TimerParts(s: State, x: TimerId)
    requires Parts(s) && Idle(s) && x in s.t.timers
    ensures Parts(OnQueryResult(Timers(s, s.t.timers - {x}), s.t.timers[x].txid, INVALID, FromTimer))
  {
    hide Orderly, Placed, Decide, CancelTimer, Live, Fit, Waits, Sound, Queue, Watched;
    var u, id := s.t.(timers := s.t.timers - {x}), s.t.timers[x].txid;
    DropTimer(s.t, x);
    SamePlaced(s.t, u, s.calls, s.firing);
    if Ignored(u, id, FromTimer) {
      TimerIgnored(s.t, u, id);
    } else {
      var q := u.byId[id];
      IdLive(s.t, id);
      TimerSame(s.t, u, q);
      assert !Named([], q);
      HandleParts(u, s.calls, q, INVALID, FromTimer);
    }
  }

  lemma TimerSame(t: Table, u: Table, q: Qid)
    requires u.queries == t.queries && u.byId == t.byId
    ensures Live(u, q) == Live(t, q)
  {
  }

  lemma TimerIgnored(t: Table, u: Table, id: u16)
    requires Orderly(t, []) && Sound(u) && Queue(u, []) && Ignored(u, id, FromTimer) && u.byId == t.byId && u.queries == t.queries
    requires forall r :: Live(u, r) && (id !in t.byId || r != t.byId[id]) ==> Watched(u, r)
    ensures Orderly(u, [])
  {
    hide Clock, Fit, Watched, Queue, Named;
    assert id in t.byId ==> IdOk(t, id);
  }

  // ----- Tasks

  lemma RetryParts(s: State, k: Task, id: u16, timer: Option<TimerId>)
    requires Nearly(s.t, s.tasks, k.q) && TaskOk(s.t, k) && Fit(s.t.queries[k.q]) && Placed(s.t, s.calls, s.firing)
    requires k.Retry? && NewId(s.t.byId - {s.t.queries[k.q].txid}, id) && NewTimer(s.t, timer)
    ensures var u := Begin(s.(t := Rekey(s.t, k.q, id)), k.q, timer); Orderly(u.t, s.tasks) && Placed(u.t, u.calls, s.firing)
  {
    var q := k.q;
    var u := Rekey(s.t, q, id);
    var x := u.queries[q];
    assert Sound(s.t) && Live(s.t, q);
    RekeyOthers(s.t, q, id);
    assert Fit(TriedUdp(x).(timer := timer)) by { RetryLeft(s.t.queries[q], TriedUdp(x).(timer := timer)); }
    hide Orderly, Nearly, Indexed, Clock, Others, TaskOk, Fit, Placed, Begin, WellFormedDomain, Rekey, TriedUdp, Sound;
    OtherWaits(s.t, u, q);
    SamePlaced(s.t, u, s.calls, s.firing);
    BeginInv(s.(t := u), q, timer, s.t);
  }

  lemma AaaaParts(s: State, k: Task, id: u16, timer: Option<TimerId>)
    requires Nearly(s.t, s.tasks, k.q) && TaskOk(s.t, k) && Fit(s.t.queries[k.q]) && Placed(s.t, s.calls, s.firing)
    requires k.Aaaa? && NewId(s.t.byId - {s.t.queries[k.q].txid}, id) && NewTimer(s.t, timer)
    ensures var u := Begin(s.(t := Rekey(ToAaaa(s.t, k.q), k.q, id)), k.q, timer); Orderly(u.t, s.tasks) && Placed(u.t, u.calls, s.firing)
  {
    var q := k.q;
    var v := ToAaaa(s.t, q);
    assert Sound(s.t) && Live(s.t, q);
    PutOthers(s.t, q, v.queries[q]);
    RekeyOthers(v, q, id);
    var u := Rekey(v, q, id);
    var x := u.queries[q];
    assert Fit(TriedUdp(x).(timer := timer)) by { AaaaLeft(s.t.queries[q], TriedUdp(x).(timer := timer)); }
    hide Orderly, Nearly, Indexed, Clock, Others, TaskOk, Fit, Placed, Begin, WellFormedDomain, Rekey, TriedUdp, Sound;
    OthersAll(s.t, v, u, q);
    OtherWaits(s.t, u, q);
    SamePlaced(s.t, u, s.calls, s.firing);
    BeginInv(s.(t := u), q, timer, s.t);
  }

  lemma FinishTaskOk(t: Table, q: Qid, a: Option<bytes>)
    requires Live(t, q)
    ensures TaskOk(t, Finish(q, a))
  {
  }

  lemma TcpTask(t: Table, q: Qid, timer: Option<TimerId>)
    requires Live(t, q) && (timer.Some? ==> Watched(t, q))
    ensures TaskOk(t, if timer.Some? then TcpStart(q) else Finish(q, None))
  {
  }

  /** The fallback to TCP; a pending query can always be printed. */
  lemma TcpParts(s: State, q: Qid, timer: Option<TimerId>)
    requires Nearly(s.t, s.tasks, q) && Live(s.t, q) && !s.t.queries[q].viaTcp && Fit(s.t.queries[q])
    requires Placed(s.t, s.calls, s.firing) && NewTimer(s.t, timer)
    ensures Parts(DoTcp(s, q, timer))
  {
    hide Orderly, Nearly, Indexed, Clock, Others, Arm, TaskOk, Fit, Placed, Live, Waits, TriedTcp, WellFormedDomain, Watched;
    LiveKnown(s.t);
    var x := TriedTcp(s.t.queries[q]);
    TcpFit(s.t.queries[q], timer);
    var v := Put(s.t, q, x);
    NearlySound(s.t, s.tasks, q);
    PutOthers(s.t, q, x);
    ArmOthers(v, q, timer);
    var u := Arm(v, q, timer);
    OthersAll(s.t, v, u, q);
    TcpTask(u, q, timer);
    OrderlyFirst(s.t, u, if timer.Some? then TcpStart(q) else Finish(q, None), s.tasks);
    OtherWaits(s.t, u, q);
    CancelWaits(s.t, u, q);
    SamePlaced(s.t, u, s.calls, s.firing);
  }

  lemma TcpFit(x: Query, timer: Option<TimerId>)
    requires Fit(x) && !x.viaTcp
    ensures WellFormedDomain(x.domain) && Fit(TriedTcp(x).(timer := timer))
    ensures var y := TriedTcp(x); y.domain == x.domain && y.txid == x.txid && y.timer == x.timer && y.calls == x.calls
  {
    hide WellFormedDomain;
    TcpLeft(x);
  }

  /** A finished query leaves both indexes, and its callbacks are the next to be called. */
  lemma FinishParts(s: State, q: Qid, a: Option<bytes>)
    requires Nearly(s.t, s.tasks, q) && Live(s.t, q) && Placed(s.t, s.calls, {})
    ensures Parts(DoFinish(s, q, a)) && !Live(DoFinish(s, q, a).t, q)
  {
    hide Orderly, Nearly, Indexed, Clock, Others, CancelTimer, Unregister, Fit, Placed, Live, Waits, Watched;
    LiveKnown(s.t);
    NearlySound(s.t, s.tasks, q);
    var v := CancelTimer(s.t, q);
    CancelOthers(s.t, q);
    var u := Unregister(v, q);
    UnregisterOthers(v, q);
    UnregisterSame(v, q);
    OthersAll(s.t, v, u, q);
    var w := Put(u, q, u.queries[q].(calls := {}));
    PutOthers(u, q, u.queries[q].(calls := {}));
    OthersAll(s.t, u, w, q);
    OrderlyOthers(s.t, w, q, s.tasks);
    OtherWaits(s.t, w, q);
    LiveWaits(s.t, w, q);
    FinishPlaced(s.t, w, s.calls, q);
  }

  lemma LiveWaits(t: Table, u: Table, q: Qid)
    requires Live(t, q) && !Live(u, q)
    ensures Waits(t, q) == t.queries[q].calls && Waits(u, q) == {}
  {
  }

  lemma TcpStartParts(s: State, k: Task, ok: bool)
    requires Nearly(s.t, s.tasks, k.q) && TaskOk(s.t, k) && k.TcpStart? && Fit(s.t.queries[k.q]) && Placed(s.t, s.calls, s.firing)
    ensures Parts(if ok then s else s.(tasks := [Finish(k.q, None)] + s.tasks))
  {
    assert Live(s.t, k.q) && Watched(s.t, k.q) && Sound(s.t);
    hide Orderly, Nearly, Indexed, Clock, Others, Fit, Placed, Live, Watched, TaskOk;
    OthersAll(s.t, s.t, s.t, k.q);
    if ok {
      OrderlyOthers(s.t, s.t, k.q, s.tasks);
    } else {
      FinishTaskOk(s.t, k.q, None);
      OrderlyFirst(s.t, s.t, Finish(k.q, None), s.tasks);
    }
  }

  lemma TaskParts(s: State, k: Task, id: u16, timer: Option<TimerId>, ok: bool)
    requires Nearly(s.t, s.tasks, k.q) && TaskOk(s.t, k) && Fit(s.t.queries[k.q]) && Placed(s.t, s.calls, s.firing) && s.firing == {}
    requires NewId(s.t.byId - {s.t.queries[k.q].txid}, id) && NewTimer(s.t, timer)
    ensures Parts(Perform(s, k, id, timer, ok))
  {
    TaskFacts(s.t, k);
    hide Nearly, TaskOk, Fit, Orderly, Placed, Begin, DoTcp, DoFinish, Rekey, ToAaaa, Live;
    match k
    case Retry(q, was) =>
      RetryParts(s, k, id, timer);
      BeginKeeps(s.(t := Rekey(s.t, q, id)), q, timer);
    case Aaaa(q, was) =>
      AaaaParts(s, k, id, timer);
      BeginKeeps(s.(t := Rekey(ToAaaa(s.t, q), q, id)), q, timer);
    case Tcp(q) => TcpParts(s, q, timer);
    case TcpStart(q) => TcpStartParts(s, k, ok);
    case Finish(q, a) => FinishParts(s, q, a);
  }

  lemma TaskFacts(t: Table, k: Task)
    requires TaskOk(t, k)
    ensures Live(t, k.q) && (k.Tcp? ==> !t.queries[k.q].viaTcp) && (k.Retry? || k.Aaaa? ==> k.id in t.byId)
  {
    hide Watched;
  }

  lemma BeginKeeps(s: State, q: Qid, timer: Option<TimerId>)
    requires q in s.t.queries
    ensures Begin(s, q, timer).tasks == s.tasks && Begin(s, q, timer).firing == s.firing
  {
    hide BeginUdp, WellFormedDomain;
  }

  lemma TaskEParts(s: State, id: u16, timer: Option<TimerId>, ok: bool)
    requires s.tasks != [] && s.tasks[0].q in s.t.queries
    requires Parts(s) && Enabled(s, TaskE(id, timer, ok))
    ensures Parts(Perform(s.(tasks := s.tasks[1..]), s.tasks[0], id, timer, ok))
  {
    hide Nearly, TaskOk, Fit, Orderly, Placed, Perform, NewId, NewTimer, Live;
    HeadNearly(s.t, s.tasks);
    TaskParts(s.(tasks := s.tasks[1..]), s.tasks[0], id, timer, ok);
  }

  // ----- Timers, receive, stop

  lemma ClockParts(s: State, u: Table)
    requires Parts(s) && u.queries == s.t.queries && u.byId == s.t.byId && u.byDomain == s.t.byDomain && Clock(u)
    requires forall q :: Watched(s.t, q) ==> Watched(u, q)
    ensures Parts(s.(t := u))
  {
    hide Clock, Indexed, Fit, Named, Placed, Watched;
    SameIndexed(s.t, u);
    ClockQueue(s.t, u, s.tasks);
    assert forall q :: Waits(u, q) == Waits(s.t, q);
    hide Queue, TaskOk, Live, Waits;
    LiveKnown(s.t);
    SamePlaced(s.t, u, s.calls, s.firing);
  }

  lemma ClockQueue(t: Table, u: Table, tasks: seq<Task>)
    requires Queue(t, tasks) && u.queries == t.queries && u.byId == t.byId && forall q :: Watched(t, q) ==> Watched(u, q)
    ensures Queue(u, tasks)
  {
    hide Watched;
    forall k | k in tasks ensures TaskOk(u, k) {
      assert TaskOk(t, k);
    }
  }

  lemma ClaimParts(s: State, x: TimerId)
    requires Parts(s) && x in s.t.timers
    ensures Parts(Timers(s, s.t.timers[x := s.t.timers[x].(queued := true)]))
  {
    var u := s.t.(timers := s.t.timers[x := s.t.timers[x].(queued := true)]);
    assert Clock(u) && forall q :: Watched(s.t, q) ==> Watched(u, q) by { ClaimClock(s.t, x); }
    hide Parts, Clock, Watched;
    ClockParts(s, u);
  }

  lemma ClaimClock(t: Table, x: TimerId)
    requires Clock(t) && x in t.timers
    ensures Clock(t.(timers := t.timers[x := t.timers[x].(queued := true)]))
    ensures forall q :: Watched(t, q) ==> Watched(t.(timers := t.timers[x := t.timers[x].(queued := true)]), q)
  {
  }

  lemma DiscardParts(s: State, x: TimerId)
    requires Parts(s) && x in s.t.timers
    ensures Parts(s.(t := s.t.(timers := s.t.timers - {x}, discarded := s.t.discarded + {x})))
  {
    var u := s.t.(timers := s.t.timers - {x}, discarded := s.t.discarded + {x});
    assert Clock(u) && forall q :: Watched(s.t, q) ==> Watched(u, q) by { DiscardClock(s.t, x); }
    hide Parts, Clock, Watched;
    ClockParts(s, u);
  }

  lemma DiscardClock(t: Table, x: TimerId)
    requires Clock(t) && x in t.timers
    ensures Clock(t.(timers := t.timers - {x}, discarded := t.discarded + {x}))
    ensures forall q :: Watched(t, q) ==> Watched(t.(timers := t.timers - {x}, discarded := t.discarded + {x}), q)
  {
  }

  lemma ReceiveParts(s: State, order: seq<Qid>)
    requires Parts(s) && Idle(s) && AllUdp(s.t, order)
    ensures Parts(s.(udpOpen := false, tasks := seq(|order|, i requires 0 <= i < |order| => Tcp(order[i]))))
  {
    hide Placed, Sound, Watched;
    var tasks := seq(|order|, i requires 0 <= i < |order| => Tcp(order[i]));
    forall k | k in tasks ensures TaskOk(s.t, k) {
      var i :| 0 <= i < |tasks| && tasks[i] == k;
      assert order[i] in order;
    }
    forall q | Live(s.t, q) && !Named(tasks, q) ensures Watched(s.t, q) {
      assert !Named([], q);
    }
  }

  lemma CollectCalls(t: Table)
    requires Indexed(t)
    ensures forall i :: i in AllCalls(t) <==> exists q :: i in Waits(t, q)
  {
    forall i: nat | i in AllCalls(t) ensures exists q :: i in Waits(t, q) {
      var j: u16 :| j in t.byId && t.byId[j] in t.queries && i in t.queries[t.byId[j]].calls;
      assert IdOk(t, j);
      assert i in Waits(t, t.byId[j]);
    }
    forall i: nat, q: Qid | i in Waits(t, q) ensures i in AllCalls(t) {
      assert t.queries[q].txid in t.byId;
    }
  }

  lemma CollectPlaced(t: Table, u: Table, c: Calls)
    requires Placed(t, c, {}) && Indexed(t) && forall q :: Waits(u, q) == {}
    ensures Placed(u, c, AllCalls(t))
  {
    hide Waits, Indexed, AllCalls;
    CollectCalls(t);
    forall i: nat | i < c.next ensures Somewhere(u, c, AllCalls(t), i) {
      assert Somewhere(t, c, {}, i);
    }
    forall i: nat | i in AllCalls(t) ensures i < c.next && i !in c.answers {
      var q :| i in Waits(t, q);
      HomeOf(t, c, {}, q, i);
    }
  }

  lemma CollectClock(s: State)
    requires Clock(s.t)
    ensures Clock(Collect(s).t)
  {
    hide AllCalls;
    var u := Collect(s).t;
    assert forall q :: q in u.queries && u.queries[q].timer.Some? ==> u.queries[q].timer == s.t.queries[q].timer;
  }

  lemma CollectIndexed(s: State)
    requires Indexed(s.t)
    ensures Indexed(Collect(s).t) && forall q :: !Live(Collect(s).t, q) && Waits(Collect(s).t, q) == {}
  {
    hide AllCalls;
  }

  lemma CollectParts(s: State)
    requires Parts(s) && Idle(s)
    ensures Parts(Collect(s))
  {
    CollectClock(s);
    CollectIndexed(s);
    hide Clock, Indexed, AllCalls, Fit, Placed, Watched, Waits;
    CollectPlaced(s.t, Collect(s).t, s.calls);
  }

  lemma StepParts(s: State, e: Event)
    requires Inv(s) && Enabled(s, e)
    ensures Parts(Step(s, e))
  {
    hide Orderly, Placed, Resolve, OnQueryResult, Perform, Collect, AtOnce, Answer, AllUdp, NewId, NewTimer, Sound, Watch, Queue;
    assert Parts(s) by { InvParts(s); }
    match e
    case ResolveNow(a) => NowParts(s, a);
    case ResolveE(d, q, id, aaaa, timer) => ResolveParts(s, d, q, id, aaaa, timer);
    case ResultE(id, r, tcp) => ResultParts(s, id, r, if tcp then FromTcp else FromUdp);
    case TimerE(x) => TimerParts(s, x);
    case TaskE(id, timer, ok) => TaskEParts(s, id, timer, ok);
    case FireE(c) => FirePlaced(s.t, s.calls, s.firing, c, s.answer);
    case ReceiveFails(order) => ReceiveParts(s, order);
    case ClaimE(x) => ClaimParts(s, x);
    case DiscardE(x) => DiscardParts(s, x);
    case CollectE => CollectParts(s);
    case _ =>
  }

  lemma NowParts(s: State, a: Option<bytes>)
    requires Parts(s)
    ensures Parts(AtOnce(s, a))
  {
    hide Orderly, Placed, Answer;
    AtOncePlaced(s.t, s.calls, s.firing, a);
  }

  lemma InvParts(s: State)
    requires Inv(s)
    ensures Parts(s)
  {
    hide Sound, Watch, Queue, Placed;
  }

  ghost predicate SameFlags(s: State, u: State) {
    u.started == s.started && u.starting == s.starting && u.stopping == s.stopping && u.stop == s.stop
  }

  lemma BeginFlags(s: State, q: Qid, timer: Option<TimerId>)
    requires q in s.t.queries
    ensures SameFlags(s, Begin(s, q, timer))
  {
    hide BeginUdp, WellFormedDomain, Answer;
  }

  lemma ResolveFlags(s: State, d: bytes, q: Qid, id: u16, aaaa: bool, timer: Option<TimerId>)
    ensures SameFlags(s, Resolve(s, d, q, id, aaaa, timer))
  {
    hide Begin, Answer;
    BeginFlags(Open(s, d, q, id, aaaa), q, timer);
  }

  lemma PerformFlags(s: State, k: Task, id: u16, timer: Option<TimerId>, ok: bool)
    requires k.q in s.t.queries
    ensures SameFlags(s, Perform(s, k, id, timer, ok))
  {
    hide Begin, Rekey, ToAaaa, CancelTimer, Unregister, Arm, WellFormedDomain;
    if k.Retry? {
      RekeyKeeps(s.t, k.q, id);
      BeginFlags(s.(t := Rekey(s.t, k.q, id)), k.q, timer);
    } else if k.Aaaa? {
      RekeyKeeps(s.t, k.q, id);
      BeginFlags(s.(t := Rekey(ToAaaa(s.t, k.q), k.q, id)), k.q, timer);
    }
  }

  lemma RekeyKeeps(t: Table, q: Qid, id: u16)
    requires q in t.queries
    ensures q in Rekey(t, q, id).queries && q in ToAaaa(t, q).queries && q in Rekey(ToAaaa(t, q), q, id).queries
  {
  }

  predicate OfLife(e: Event) {
    e.StartE? || e.StartedE? || e.StopE? || e.CollectE? || e.UnlockE? || e.StoppedE?
  }

  /** Only the life cycle's own steps touch its flags. */
  lemma FlagsStay(s: State, e: Event)
    requires Enabled(s, e) && !OfLife(e)
    ensures SameFlags(s, Step(s, e))
  {
    hide Resolve, Perform, Answer, AllUdp, NewId, NewTimer, Decide, CancelTimer;
    match e
    case ResolveE(d, q, id, aaaa, timer) => ResolveFlags(s, d, q, id, aaaa, timer);
    case TaskE(id, timer, ok) => PerformFlags(s.(tasks := s.tasks[1..]), s.tasks[0], id, timer, ok);
    case _ =>
  }

  lemma OwnLife(s: State, e: Event)
    requires Inv(s) && Enabled(s, e) && OfLife(e)
    ensures Life(Step(s, e))
  {
    hide Placed, Sound, Watch, Queue, AllCalls;
  }

  /** Once collected, nothing comes back: a stopping resolver registers nothing. */
  lemma EmptyStays(s: State, e: Event)
    requires Inv(s) && Enabled(s, e) && s.stopping && s.t.byId == map[]
    ensures Step(s, e).t.byId == map[] || e.StartE?
    ensures s.firing == {} ==> Step(s, e).firing == {} || e.CollectE?
  {
    assert s.tasks == [] by { EmptyTasks(s.t, s.tasks); }
    hide Placed, Sound, Watch, Queue, Answer, AllUdp, NewId, NewTimer, AllCalls;
  }

  lemma EmptyTasks(t: Table, tasks: seq<Task>)
    requires Queue(t, tasks) && t.byId == map[]
    ensures tasks == []
  {
    assert tasks != [] ==> TaskOk(t, tasks[0]);
  }

  lemma CollectingIdle(s: State, e: Event)
    requires Inv(s) && Enabled(s, e) && s.stop.Collecting? && !e.CollectE?
    ensures Idle(Step(s, e))
  {
    hide Placed, Sound, Watch, Queue, Answer, AllUdp, NewId, NewTimer, BeginUdp, Register, WellFormedDomain;
  }

  lemma StepLife(s: State, e: Event)
    requires Inv(s) && Enabled(s, e)
    ensures Life(Step(s, e))
  {
    hide Placed, Sound, Watch, Queue, Step, Enabled;
    if OfLife(e) {
      OwnLife(s, e);
    } else {
      FlagsStay(s, e);
      if s.stop.Collecting? {
        CollectingIdle(s, e);
      } else if s.stop.Answering? || s.stop.Unlocked? {
        EmptyStays(s, e);
      }
    }
  }

  lemma StepInv(s: State, e: Event)
    requires Inv(s) && Enabled(s, e)
    ensures Inv(Step(s, e))
  {
    hide Placed, Sound, Watch, Queue, Step, Enabled, Life;
    StepParts(s, e);
    StepLife(s, e);
  }

  lemma FirstInv()
    ensures Inv(INITIAL)
  {
  }

  ghost predicate IsRun(run: seq<State>, es: seq<Event>) {
    && |run| == |es| + 1 && run[0] == INITIAL
    && forall n :: 0 <= n < |es| ==> Enabled(run[n], es[n]) && run[n + 1] == Step(run[n], es[n])
  }

  lemma {:induction false} EveryRun(run: seq<State>, es: seq<Event>, n: nat)
    requires IsRun(run, es) && n < |run|
    ensures Inv(run[n])
    decreases n
  {
    hide Inv, Step, Enabled;
    if n == 0 {
      FirstInv();
    } else {
      EveryRun(run, es, n - 1);
      StepInv(run[n - 1], es[n - 1]);
    }
  }
}
