/**
 A session's idle and connect timers. CancelTimeout can lose the race against a worker that
 has claimed the timer already; the generation in the timer's key is what makes it harmless.
 */
module SessionTimers {
  import opened Bytes
  import Session
  import SocksParser

  type Config = SocksParser.Config
  type Mode = Session.Mode
  type Posts = Session.Posts

  const WORD: nat := 0x1_0000_0000_0000_0000
  const SHIFTED: nat := 0x100_0000_0000_0000
  const CONNECT_KIND: nat := 2
  const IDLE_KIND: nat := 3

  datatype Kind = Connect | Idle

  function KindOctet(k: Kind): nat {
    if k.Connect? then CONNECT_KIND else IDLE_KIND
  }

  /** A generation shifted left by eight bits in a 64-bit word, with the kind in the low octet. */
  function Key(generation: nat, k: Kind): (key: nat)
    ensures key < WORD
  {
    (generation * 256) % WORD + KindOctet(k)
  }

  /** What is left of the generation when the key is shifted back: its low 56 bits. */
  lemma KeyParts(generation: nat, k: Kind)
    requires generation < WORD
    ensures Key(generation, k) % 256 == KindOctet(k)
    ensures Key(generation, k) / 256 == generation % SHIFTED
  {
    assert (generation * 256) % WORD == (generation % SHIFTED) * 256;
  }

  /** A scheduled timer; `stamp` remembers how many arms and cancels of its kind there had been. */
  datatype Timer = Timer(key: nat, queued: bool, kind: Kind, stamp: nat)

  /** One kind of timer: how often its generation was raised, and the id of its timer, if any. */
  datatype Watch = Watch(raised: nat, id: Option<nat>)

  datatype State = State(idle: Watch, connect: Watch, timers: map<nat, Timer>, used: set<nat>)

  const FIRST := State(Watch(0, None), Watch(0, None), map[], {})

  function Of(s: State, k: Kind): Watch {
    if k.Connect? then s.connect else s.idle
  }

  function With(s: State, k: Kind, w: Watch): State {
    if k.Connect? then s.(connect := w) else s.(idle := w)
  }

  function Generation(w: Watch): nat {
    w.raised % WORD
  }

  // ----- Steps

  function Cancel(s: State, k: Kind): State {
    var w := Of(s, k);
    var t := With(s, k, Watch(w.raised + 1, None));
    if w.id.Some? && w.id.value in s.timers && !s.timers[w.id.value].queued then t.(timers := s.timers - {w.id.value}) else t
  }

  /** Under a new generation; None is a refused schedule. */
  function Schedule(s: State, k: Kind, timer: Option<nat>): State {
    var w := Watch(Of(s, k).raised + 1, timer);
    if timer.None? then With(s, k, w)
    else
      With(s, k, w).(timers := s.timers[timer.value := Timer(Key(Generation(w), k), false, k, w.raised)],
                     used := s.used + {timer.value})
  }

  /** `on` is false where the timer is switched off or not wanted. */
  function Arm(s: State, k: Kind, on: bool, timer: Option<nat>): State {
    if on then Schedule(Cancel(s, k), k, timer) else Cancel(s, k)
  }

  /** The generation test of OnTimer, for a key as delivered. */
  predicate Passes(s: State, key: nat) {
    if key % 256 == CONNECT_KIND then key / 256 == Generation(s.connect)
    else key % 256 == IDLE_KIND && key / 256 == Generation(s.idle)
  }

  function Fire(s: State, key: nat): State {
    if !Passes(s, key) then s
    else if key % 256 == CONNECT_KIND then s.(connect := s.connect.(id := None))
    else s.(idle := s.idle.(id := None))
  }

  datatype Event =
    | ArmE(k: Kind, on: bool, timer: Option<nat>)
    | CancelE(k: Kind)
    | ClaimE(id: nat)
    | DeliverE(id: nat)
    | DiscardE(id: nat)

  predicate Enabled(s: State, e: Event) {
    match e
    case ArmE(_, _, timer) => timer.Some? ==> timer.value !in s.used
    case CancelE(_) => true
    case ClaimE(id) => id in s.timers && !s.timers[id].queued
    case DeliverE(id) => id in s.timers && s.timers[id].queued
    case DiscardE(id) => id in s.timers && s.timers[id].queued
  }

  function Step(s: State, e: Event): State
    requires Enabled(s, e)
  {
    match e
    case ArmE(k, on, timer) => Arm(s, k, on, timer)
    case CancelE(k) => Cancel(s, k)
    case ClaimE(id) => s.(timers := s.timers[id := s.timers[id].(queued := true)])
    case DeliverE(id) => Fire(s.(timers := s.timers - {id}), s.timers[id].key)
    case DiscardE(id) => s.(timers := s.timers - {id})
  }

  ghost predicate IsRun(run: seq<State>, es: seq<Event>) {
    && |run| == |es| + 1 && run[0] == FIRST
    && forall n :: 0 <= n < |es| ==> Enabled(run[n], es[n]) && run[n + 1] == Step(run[n], es[n])
  }

  // ----- What every step keeps

  /** Every timer carries the generation of its stamp, which lies in the past or is the present. */
  ghost predicate Stamped(s: State) {
    && (forall id :: id in s.timers ==> id in s.used && s.timers[id].stamp <= Of(s, s.timers[id].kind).raised
                                        && s.timers[id].key == Key(s.timers[id].stamp % WORD, s.timers[id].kind))
    && (s.connect.id.Some? ==> s.connect.id.value in s.used)
    && (s.idle.id.Some? ==> s.idle.id.value in s.used)
  }

  lemma CancelStamped(s: State, k: Kind)
    requires Stamped(s)
    ensures Stamped(Cancel(s, k))
  {
    hide Key;
  }

  lemma ArmStamped(s: State, k: Kind, on: bool, timer: Option<nat>)
    requires Stamped(s) && (timer.Some? ==> timer.value !in s.used)
    ensures Stamped(Arm(s, k, on, timer))
  {
    hide Key, Cancel;
    CancelStamped(s, k);
    CancelOnly(s, k);
  }

  lemma CancelOnly(s: State, k: Kind)
    ensures var t := Cancel(s, k); t.used == s.used && t.timers.Keys <= s.timers.Keys && Of(t, k).raised == Of(s, k).raised + 1
  {
  }

  lemma StepStamped(s: State, e: Event)
    requires Stamped(s) && Enabled(s, e)
    ensures Stamped(Step(s, e))
  {
    hide Key, Cancel, Arm;
    match e
    case ArmE(k, on, timer) => ArmStamped(s, k, on, timer);
    case CancelE(k) => CancelStamped(s, k);
    case _ =>
  }

  /** Only arms and cancels of a kind raise its generation, and they do. */
  predicate Touches(e: Event, k: Kind) {
    (e.ArmE? || e.CancelE?) && e.k == k
  }

  lemma StepRaises(s: State, e: Event, k: Kind)
    requires Enabled(s, e)
    ensures Of(Step(s, e), k).raised >= Of(s, k).raised
    ensures Of(Step(s, e), k).raised > Of(s, k).raised <==> Touches(e, k)
  {
    hide Key;
  }

  lemma {:induction false} RunStamped(run: seq<State>, es: seq<Event>, n: nat)
    requires IsRun(run, es) && n < |run|
    ensures Stamped(run[n])
    decreases n
  {
    hide Stamped, Step, Enabled;
    if n == 0 {
      assert Stamped(FIRST) by { FirstStamped(); }
    } else {
      RunStamped(run, es, n - 1);
      StepStamped(run[n - 1], es[n - 1]);
    }
  }

  lemma FirstStamped()
    ensures Stamped(FIRST)
  {
  }

  lemma {:induction false} RunRaises(run: seq<State>, es: seq<Event>, k: Kind, m: nat, n: nat)
    requires IsRun(run, es) && m <= n < |run|
    ensures Of(run[n], k).raised >= Of(run[m], k).raised
    ensures Of(run[n], k).raised == Of(run[m], k).raised <==> forall j :: m <= j < n ==> !Touches(es[j], k)
    decreases n
  {
    hide Step, Enabled, Touches;
    if m < n {
      RunRaises(run, es, k, m, n - 1);
      StepRaises(run[n - 1], es[n - 1], k);
    }
  }

  /** A delivered timer passes the test exactly when its stamp, cut to 56 bits, is the present generation. */
  lemma PassesExactly(s: State, id: nat)
    requires Stamped(s) && id in s.timers
    ensures var t := s.timers[id];
            Passes(s, t.key) <==> t.stamp % WORD % SHIFTED == Generation(Of(s, t.kind))
  {
    hide Key;
    KeyParts(s.timers[id].stamp % WORD, s.timers[id].kind);
  }

  lemma LowBits(stamp: nat, now: nat)
    requires stamp <= now < WORD
    ensures stamp % WORD % SHIFTED == now % WORD <==> stamp == now && now < SHIFTED
  {
  }

  lemma ArmedStamp(s: State, k: Kind, id: nat)
    ensures var t := Arm(s, k, true, Some(id)); id in t.timers && t.timers[id].kind == k && t.timers[id].stamp == Of(t, k).raised
  {
    hide Key;
  }

  lemma StepKeepsStamp(s: State, e: Event, id: nat)
    requires Stamped(s) && Enabled(s, e) && id in s.used && id in Step(s, e).timers
    ensures id in s.timers && Step(s, e).timers[id].stamp == s.timers[id].stamp && Step(s, e).timers[id].kind == s.timers[id].kind
  {
    hide Key, Stamped;
  }

  lemma StepKeepsUsed(s: State, e: Event, id: nat)
    requires Enabled(s, e) && id in s.used
    ensures id in Step(s, e).used
  {
    hide Key;
  }

  lemma {:induction false} RunKeepsStamp(run: seq<State>, es: seq<Event>, id: nat, m: nat, n: nat)
    requires IsRun(run, es) && m <= n < |run| && id in run[m].timers
    ensures id in run[n].used
    ensures id in run[n].timers ==>
              run[n].timers[id].stamp == run[m].timers[id].stamp && run[n].timers[id].kind == run[m].timers[id].kind
    decreases n
  {
    hide Step, Enabled, Stamped;
    if m == n {
      RunStamped(run, es, m);
      TimerUsed(run[m], id);
    } else {
      RunKeepsStamp(run, es, id, m, n - 1);
      RunStamped(run, es, n - 1);
      StepKeepsUsed(run[n - 1], es[n - 1], id);
      if id in run[n].timers {
        StepKeepsStamp(run[n - 1], es[n - 1], id);
      }
    }
  }

  lemma TimerUsed(s: State, id: nat)
    requires Stamped(s) && id in s.timers
    ensures id in s.used
  {
    hide Key;
  }

  /**
   A timer armed at step m and delivered at step n takes effect only if no timer of its kind was
   armed or cancelled in between, whoever won the race for it; and if none was, it does take
   effect. (Fewer than 2^64 arms and cancels; the second half needs fewer than 2^56.)
   */
  lemma StaleNeverActs(run: seq<State>, es: seq<Event>, m: nat, n: nat)
    requires IsRun(run, es) && m < n < |es| && es[m].ArmE? && es[m].on && es[m].timer.Some? && es[n] == DeliverE(es[m].timer.value)
    requires Of(run[n], es[m].k).raised < WORD
    ensures es[n].id in run[n].timers
    ensures Passes(run[n], run[n].timers[es[n].id].key) <==>
              (forall j :: m < j < n ==> !Touches(es[j], es[m].k)) && Of(run[n], es[m].k).raised < SHIFTED
  {
    var k, id := es[m].k, es[m].timer.value;
    assert Enabled(run[n], es[n]) && run[m + 1] == Step(run[m], es[m]);
    ArmedStamp(run[m], k, id);
    hide Step, Enabled, Stamped, Passes, Arm, Key, Touches;
    RunKeepsStamp(run, es, id, m + 1, n);
    RunRaises(run, es, k, m + 1, n);
    RunStamped(run, es, n);
    PassesExactly(run[n], id);
    LowBits(run[n].timers[id].stamp, Of(run[n], k).raised);
  }

  // ----- The session's own methods

  datatype Entry = Entry(key: nat, queued: bool)

  class Timers {
    var connectTimerId: nat
    var connectTimerGeneration: nat
    var idleTimerId: nat
    var idleTimerGeneration: nat
    /** The port's side: timers in its table or claimed. */
    var scheduled: map<nat, Entry>
    ghost var s: State

    ghost function Shown(id: Option<nat>): nat {
      if id.None? then 0 else id.value
    }

    ghost predicate Valid()
      reads this
    {
      && connectTimerId == Shown(s.connect.id) && connectTimerGeneration == Generation(s.connect)
      && idleTimerId == Shown(s.idle.id) && idleTimerGeneration == Generation(s.idle)
      && scheduled.Keys == s.timers.Keys
      && (forall id :: id in scheduled ==> scheduled[id] == Entry(s.timers[id].key, s.timers[id].queued))
      && s.connect.id != Some(0) && s.idle.id != Some(0)
    }

    constructor ()
      ensures Valid() && s == FIRST
    {
      connectTimerId, connectTimerGeneration, idleTimerId, idleTimerGeneration, scheduled := 0, 0, 0, 0, map[];
      s := FIRST;
    }

    /** A timer that is not claimed yet has left the port's table; no other has. */
    ghost predicate Unscheduled(before: map<nat, Entry>, id: nat, after: map<nat, Entry>) {
      after == if id != 0 && id in before && !before[id].queued then before - {id} else before
    }

    method CancelTimeout(id: nat)
      modifies this`scheduled
      ensures scheduled == if id in old(scheduled) && !old(scheduled)[id].queued then old(scheduled) - {id} else old(scheduled)
    {
      if id in scheduled && !scheduled[id].queued {
        scheduled := scheduled - {id};
      }
    }

    method CancelConnectTimer()
      requires Valid()
      modifies this
      ensures Valid() && s == Cancel(old(s), Connect)
      ensures connectTimerId == 0 && connectTimerGeneration == (old(connectTimerGeneration) + 1) % WORD
      ensures Unscheduled(old(scheduled), old(connectTimerId), scheduled)
    {
      connectTimerGeneration := (connectTimerGeneration + 1) % WORD;
      if connectTimerId != 0 {
        CancelTimeout(connectTimerId);
        connectTimerId := 0;
      }
      s := Cancel(s, Connect);
    }

    method CancelIdleTimer()
      requires Valid()
      modifies this
      ensures Valid() && s == Cancel(old(s), Idle)
      ensures idleTimerId == 0 && idleTimerGeneration == (old(idleTimerGeneration) + 1) % WORD
      ensures Unscheduled(old(scheduled), old(idleTimerId), scheduled)
    {
      idleTimerGeneration := (idleTimerGeneration + 1) % WORD;
      if idleTimerId != 0 {
        CancelTimeout(idleTimerId);
        idleTimerId := 0;
      }
      s := Cancel(s, Idle);
    }

    /** `on` is a positive timeout; `id` is what ScheduleTimeout returns, 0 if it fails. */
    method ArmConnectTimer(on: bool, id: nat) returns (ok: bool)
      requires Valid()
      modifies this
      ensures Valid() && ok == (!on || id != 0)
      ensures s == Arm(old(s), Connect, on, if id == 0 then None else Some(id))
      ensures on ==> connectTimerId == id
      ensures on && id != 0 ==> id in scheduled && scheduled[id] == Entry(Key(connectTimerGeneration, Connect), false)
    {
      hide Key, Cancel;
      CancelConnectTimer();
      if !on { return true; }
      connectTimerGeneration := (connectTimerGeneration + 1) % WORD;
      connectTimerId := id;
      if id != 0 {
        scheduled := scheduled[id := Entry(Key(connectTimerGeneration, Connect), false)];
      }
      s := Arm(old(s), Connect, on, if id == 0 then None else Some(id));
      ok := connectTimerId != 0;
    }

    /** The idle timer is not armed once a request is under way. */
    method ArmIdleTimer(on: bool, id: nat)
      requires Valid()
      modifies this
      ensures Valid() && s == Arm(old(s), Idle, on, if id == 0 then None else Some(id))
      ensures on ==> idleTimerId == id
      ensures on && id != 0 ==> id in scheduled && scheduled[id] == Entry(Key(idleTimerGeneration, Idle), false)
    {
      hide Key, Cancel;
      CancelIdleTimer();
      if on {
        idleTimerGeneration := (idleTimerGeneration + 1) % WORD;
        if id != 0 {
          scheduled := scheduled[id := Entry(Key(idleTimerGeneration, Idle), false)];
        }
        idleTimerId := id;
        s := Arm(old(s), Idle, on, if id == 0 then None else Some(id));
      }
    }

    /**
     The whole handler: a closed session ignores timers; a timer of the present generation is
     forgotten, and then acts only in the states it was armed for.
     */
    method OnTimer(key: nat, closed: bool, mode: Mode) returns (effect: Effect)
      requires Valid()
      modifies this
      ensures Valid() && s == if closed then old(s) else Fire(old(s), key)
      ensures effect == Acts(old(s), key, closed, mode)
    {
      effect := Nothing;
      if closed { return; }
      var kind, generation := key % 256, key / 256;
      if kind == CONNECT_KIND {
        if generation != connectTimerGeneration { return; }
        connectTimerId := 0;
        s := Fire(s, key);
        if !mode.Connecting? { return; }
        effect := TimedOut;
      } else if kind == IDLE_KIND {
        if generation != idleTimerGeneration { return; }
        idleTimerId := 0;
        s := Fire(s, key);
        if mode.Relaying? || mode.Udp? || mode.Resolving? || mode.Connecting? || mode.Closing? { return; }
        effect := IdledOut;
      }
    }
  }

  // ----- What a timer does

  /** Nothing, the reply and close of a connect that took too long, or the close of an idle dialogue. */
  datatype Effect = Nothing | TimedOut | IdledOut

  function Acts(s: State, key: nat, closed: bool, mode: Mode): Effect {
    if closed || !Passes(s, key) then Nothing
    else if key % 256 == CONNECT_KIND then if mode.Connecting? then TimedOut else Nothing
    else if mode.Parsing? then IdledOut else Nothing
  }

  function Apply(c: Config, v: Session.State, effect: Effect, o: Posts): Session.State {
    match effect
    case Nothing => v
    case TimedOut => Session.FailAndClose(c, v, Session.TTL_EXPIRED, o.clientSend)
    case IdledOut => Session.Close(v)
  }

  /** In the session's own steps, these are the two timer events. */
  lemma ActsAsEvents(c: Config, v: Session.State, s: State, key: nat, o: Posts)
    ensures var e := Acts(s, key, v.closed, v.mode);
            && (e.TimedOut? ==> v.mode.Connecting? && Apply(c, v, e, o) == Session.Step(c, v, Session.ConnectTimeout(o)))
            && (e.IdledOut? ==> v.mode.Parsing? && Apply(c, v, e, o) == Session.Step(c, v, Session.IdleTimeout))
  {
    hide Session.FailAndClose;
  }

  /**
   With the states: a timer armed at step m and delivered at step n to a session in this mode acts
   exactly if no timer of its kind was touched in between, the session is open, and the mode is one
   that the kind is for.
   */
  lemma ActsExactly(run: seq<State>, es: seq<Event>, m: nat, n: nat, closed: bool, mode: Mode)
    requires IsRun(run, es) && m < n < |es| && es[m].ArmE? && es[m].on && es[m].timer.Some? && es[n] == DeliverE(es[m].timer.value)
    requires Of(run[n], es[m].k).raised < SHIFTED
    ensures es[n].id in run[n].timers
    ensures var effect := Acts(run[n], run[n].timers[es[n].id].key, closed, mode);
            !effect.Nothing? <==>
              && (forall j :: m < j < n ==> !Touches(es[j], es[m].k)) && !closed
              && (if es[m].k.Connect? then mode.Connecting? else mode.Parsing?)
  {
    StaleNeverActs(run, es, m, n);
    RunStamped(run, es, n);
    KindOf(run, es, m, n);
    hide Passes, IsRun, Stamped, Touches;
  }

  /** The delivered key names the kind that was armed. */
  lemma KindOf(run: seq<State>, es: seq<Event>, m: nat, n: nat)
    requires IsRun(run, es) && m < n < |es| && es[m].ArmE? && es[m].on && es[m].timer.Some? && es[n] == DeliverE(es[m].timer.value)
    ensures es[n].id in run[n].timers && run[n].timers[es[n].id].key % 256 == KindOctet(es[m].k)
  {
    var k, id := es[m].k, es[m].timer.value;
    assert Enabled(run[n], es[n]) && run[m + 1] == Step(run[m], es[m]);
    ArmedStamp(run[m], k, id);
    hide Step, Enabled, Passes, Arm, Key, Touches;
    RunKeepsStamp(run, es, id, m + 1, n);
    RunStamped(run, es, n);
    KeyParts(run[n].timers[id].stamp % WORD, k);
  }
}
