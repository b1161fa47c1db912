/**
 A session and its timers together: what every handler does to the idle and the connect timer,
 and what a timer that is delivered, however late, does to the session.
 */
module SessionClock {
  import opened Bytes
  import opened SocksParser
  import opened Session
  import opened SessionStory
  import opened SessionFlow
  import opened SessionWaits
  import T = SessionTimers

  type Kind = T.Kind

  /** Which timeouts are configured. */
  datatype Limits = Limits(idle: bool, connect: bool)

  /** `lost` are the timers that the port discarded instead of delivering. */
  datatype Joint = Joint(v: State, s: T.State, lost: set<nat>)

  /** `idle` and `connect` are what the port returns where the handler schedules such a timer. */
  datatype Tick =
    | Handles(e: Event, idle: Option<nat>, connect: Option<nat>)
    | Claims(id: nat)
    | Discards(id: nat)
    | Delivers(id: nat, o: Posts)

  // ----- What the handlers do to the timers

  function CancelBoth(s: T.State): T.State {
    T.Cancel(T.Cancel(s, T.Connect), T.Idle)
  }

  /** Octets of the dialogue arm the idle timer anew; the result of the connect cancels its timer. */
  function Entered(l: Limits, s: T.State, v: State, e: Event, idle: Option<nat>): T.State {
    if e.ClientRecv? && e.data != [] && v.mode.Parsing? then T.Arm(s, T.Idle, l.idle, idle)
    else if e.Connected? then T.Cancel(s, T.Connect)
    else s
  }

  function Moved(l: Limits, s: T.State, from: Mode, to: Mode, connect: Option<nat>): T.State {
    if from == to then s
    else match to
         case Connecting => T.Arm(T.Cancel(s, T.Idle), T.Connect, l.connect, connect)
         case Closing => CancelBoth(s)
         case _ => T.Cancel(s, T.Idle)
  }

  function Left(s: T.State, closed: bool): T.State {
    if closed then CancelBoth(s) else s
  }

  function Touched(l: Limits, s: T.State, v: State, e: Event, w: State, idle: Option<nat>, connect: Option<nat>): T.State {
    if v.closed then s else Left(Moved(l, Entered(l, s, v, e, idle), v.mode, w.mode, connect), w.closed)
  }

  /** A closed session does not look at the timer; one that acts ends the dialogue or the connect. */
  function Rung(s: T.State, id: nat, closed: bool, effect: T.Effect): T.State
    requires id in s.timers
  {
    var t := s.(timers := s.timers - {id});
    if closed then t else Left(T.Fire(t, s.timers[id].key), !effect.Nothing?)
  }

  function Effect(x: Joint, id: nat): T.Effect
    requires id in x.s.timers
  {
    T.Acts(x.s, x.s.timers[id].key, x.v.closed, x.v.mode)
  }

  predicate New(s: T.State, idle: Option<nat>, connect: Option<nat>) {
    && (idle.Some? ==> idle.value !in s.used) && (connect.Some? ==> connect.value !in s.used)
    && (idle.Some? && connect.Some? ==> idle.value != connect.value)
  }

  /** A connect whose timer is refused counts as a failed launch. */
  predicate Ready(c: Config, l: Limits, x: Joint, t: Tick) {
    match t
    case Handles(e, idle, connect) =>
      && !e.ConnectTimeout? && !e.IdleTimeout? && Enabled(x.v, e) && New(x.s, idle, connect)
      && (l.connect && !x.v.mode.Connecting? && Step(c, x.v, e).mode.Connecting? ==> connect.Some?)
    case Claims(id) => id in x.s.timers && !x.s.timers[id].queued
    case Discards(id) => id in x.s.timers && x.s.timers[id].queued
    case Delivers(id, _) => id in x.s.timers && x.s.timers[id].queued
  }

  function Next(c: Config, l: Limits, x: Joint, t: Tick): Joint
    requires Ready(c, l, x, t)
  {
    match t
    case Handles(e, idle, connect) =>
      var w := Step(c, x.v, e);
      Joint(w, Touched(l, x.s, x.v, e, w, idle, connect), x.lost)
    case Claims(id) => x.(s := T.Step(x.s, T.ClaimE(id)))
    case Discards(id) => x.(s := T.Step(x.s, T.DiscardE(id)), lost := x.lost + {id})
    case Delivers(id, o) =>
      x.(v := T.Apply(c, x.v, Effect(x, id), o), s := Rung(x.s, id, x.v.closed, Effect(x, id)))
  }

  /** Start arms the idle timer. */
  function Begun(l: Limits, idle: Option<nat>): Joint {
    Joint(FIRST, T.Arm(T.FIRST, T.Idle, l.idle, idle), {})
  }

  ghost predicate IsJoint(c: Config, l: Limits, first: Option<nat>, run: seq<Joint>, ts: seq<Tick>) {
    && |run| == |ts| + 1 && run[0] == Begun(l, first)
    && forall i :: 0 <= i < |ts| ==> Ready(c, l, run[i], ts[i]) && run[i + 1] == Next(c, l, run[i], ts[i])
  }

  // ----- The session alone

  /** Seen without its timers, a joint step is a step of the session, or none. */
  lemma NextIsStep(c: Config, l: Limits, x: Joint, t: Tick)
    requires Ready(c, l, x, t)
    ensures var w := Next(c, l, x, t).v; w == x.v || exists e :: Enabled(x.v, e) && w == Step(c, x.v, e)
  {
    hide Touched, Rung, T.Acts, T.Apply, T.Step, FailAndClose;
    match t
    case Handles(e, _, _) =>
    case Delivers(id, o) =>
      var effect := Effect(x, id);
      T.ActsAsEvents(c, x.v, x.s, x.s.timers[id].key, o);
      assert Enabled(x.v, ConnectTimeout(o)) && Enabled(x.v, IdleTimeout);
      assert effect.Nothing? ==> T.Apply(c, x.v, effect, o) == x.v by { NothingApplied(c, x.v, o); }
    case _ =>
  }

  lemma NothingApplied(c: Config, v: State, o: Posts)
    ensures T.Apply(c, v, T.Nothing, o) == v
  {
  }

  lemma {:induction false} EverySession(c: Config, l: Limits, first: Option<nat>, run: seq<Joint>, ts: seq<Tick>, n: nat)
    requires IsJoint(c, l, first, run, ts) && n < |run|
    ensures Inv(c, run[n].v)
    decreases n
  {
    hide Inv, Step, Enabled, Next, Ready;
    if n == 0 {
      FirstInv(c);
    } else {
      EverySession(c, l, first, run, ts, n - 1);
      var v, w := run[n - 1].v, run[n].v;
      NextIsStep(c, l, run[n - 1], ts[n - 1]);
      if w != v {
        var e :| Enabled(v, e) && w == Step(c, v, e);
        StepInv(c, v, e);
      }
    }
  }

  // ----- What every step keeps of the timers

  /** The timer whose id the session holds is of the present generation, or it was discarded. */
  ghost predicate Held(s: T.State, k: Kind, lost: set<nat>) {
    var w := T.Of(s, k);
    w.id.Some? ==>
      if w.id.value in s.timers then s.timers[w.id.value].kind == k && s.timers[w.id.value].stamp == w.raised
      else w.raised < T.SHIFTED ==> w.id.value in lost
  }

  /** There is no other timer of the present generation, and none at all where none is wanted. */
  ghost predicate Sole(s: T.State, k: Kind, wanted: bool) {
    forall id :: id in s.timers && s.timers[id].kind == k && s.timers[id].stamp == T.Of(s, k).raised ==>
                   wanted && T.Of(s, k).id == Some(id)
  }

  ghost predicate Sound(s: T.State, lost: set<nat>, idle: bool, connect: bool) {
    && T.Stamped(s) && Held(s, T.Idle, lost) && Held(s, T.Connect, lost)
    && Sole(s, T.Idle, idle) && Sole(s, T.Connect, connect)
  }

  /** The mode that a timer of this kind is for. */
  predicate For(k: Kind, v: State) {
    !v.closed && if k.Idle? then v.mode.Parsing? else v.mode.Connecting?
  }

  ghost predicate Clocked(l: Limits, x: Joint) {
    && Sound(x.s, x.lost, For(T.Idle, x.v), For(T.Connect, x.v))
    && (For(T.Connect, x.v) && l.connect ==> x.s.connect.id.Some?)
    && Configured(l, x.s)
  }

  ghost predicate Configured(l: Limits, s: T.State) {
    (s.idle.id.Some? ==> l.idle) && (s.connect.id.Some? ==> l.connect)
  }

  lemma CancelSound(s: T.State, lost: set<nat>, idle: bool, connect: bool, k: Kind)
    requires Sound(s, lost, idle, connect)
    ensures Sound(T.Cancel(s, k), lost, idle && !k.Idle?, connect && !k.Connect?)
  {
    hide T.Key;
    T.CancelStamped(s, k);
  }

  lemma ScheduleSound(s: T.State, lost: set<nat>, idle: bool, connect: bool, k: Kind, timer: Option<nat>)
    requires Sound(s, lost, idle, connect) && (timer.Some? ==> timer.value !in s.used) && T.Of(s, k).id.None?
    requires T.Stamped(T.Schedule(s, k, timer))
    ensures Sound(T.Schedule(s, k, timer), lost, idle || k.Idle?, connect || k.Connect?)
  {
    hide T.Key;
  }

  lemma ArmSound(s: T.State, lost: set<nat>, idle: bool, connect: bool, k: Kind, on: bool, timer: Option<nat>)
    requires Sound(s, lost, idle, connect) && (timer.Some? ==> timer.value !in s.used)
    ensures Sound(T.Arm(s, k, on, timer), lost, if k.Idle? then true else idle, if k.Connect? then true else connect)
  {
    CancelSound(s, lost, idle, connect, k);
    Cancelled(s, k);
    T.ArmStamped(s, k, on, timer);
    hide T.Cancel, T.Stamped, T.Schedule, Held, Sole;
    var t := T.Cancel(s, k);
    if on {
      ScheduleSound(t, lost, idle && !k.Idle?, connect && !k.Connect?, k, timer);
    } else {
      MoreSound(t, lost, idle && !k.Idle?, connect && !k.Connect?);
    }
  }

  lemma MoreSound(s: T.State, lost: set<nat>, idle: bool, connect: bool)
    requires Sound(s, lost, idle, connect)
    ensures forall a, b :: (idle ==> a) && (connect ==> b) ==> Sound(s, lost, a, b)
  {
    hide T.Stamped, Held;
  }

  lemma Cancelled(s: T.State, k: Kind)
    ensures T.Of(T.Cancel(s, k), k).id.None? && T.Cancel(s, k).used == s.used
  {
  }

  lemma BothSound(s: T.State, lost: set<nat>)
    requires T.Stamped(s)
    ensures Sound(CancelBoth(s), lost, false, false)
  {
    T.CancelStamped(s, T.Connect);
    T.CancelStamped(T.Cancel(s, T.Connect), T.Idle);
    hide T.Key;
  }

  lemma ClaimSound(s: T.State, lost: set<nat>, idle: bool, connect: bool, id: nat)
    requires Sound(s, lost, idle, connect) && id in s.timers
    ensures Sound(s.(timers := s.timers[id := s.timers[id].(queued := true)]), lost, idle, connect)
  {
    hide T.Key;
  }

  lemma DropSound(s: T.State, lost: set<nat>, idle: bool, connect: bool, id: nat)
    requires Sound(s, lost, idle, connect) && id in s.timers
    ensures Sound(s.(timers := s.timers - {id}), lost + {id}, idle, connect)
  {
    hide T.Key;
  }

  /** A timer that is delivered and does not pass was not one of the present generation, unless that has outgrown 56 bits. */
  lemma PassesIsPresent(s: T.State, id: nat)
    requires T.Stamped(s) && id in s.timers
    ensures var t := s.timers[id]; t.stamp == T.Of(s, t.kind).raised < T.SHIFTED ==> T.Passes(s, t.key)
    ensures var t := s.timers[id]; T.Of(s, t.kind).raised < T.WORD && T.Passes(s, t.key) ==> t.stamp == T.Of(s, t.kind).raised < T.SHIFTED
  {
    T.PassesExactly(s, id);
    hide T.Passes, T.Stamped;
    var t := s.timers[id];
    if T.Of(s, t.kind).raised < T.WORD {
      T.LowBits(t.stamp, T.Of(s, t.kind).raised) by { StampPast(s, id); }
    }
  }

  lemma StampPast(s: T.State, id: nat)
    requires T.Stamped(s) && id in s.timers
    ensures s.timers[id].stamp <= T.Of(s, s.timers[id].kind).raised
  {
    hide T.Key;
  }

  /** A timer that passes where none of its kind is wanted only forgets its id. */
  lemma FireSound(s: T.State, lost: set<nat>, idle: bool, connect: bool, id: nat)
    requires Sound(s, lost, idle, connect) && id in s.timers
    requires T.Passes(s, s.timers[id].key) ==> !(if s.timers[id].kind.Idle? then idle else connect)
    ensures Sound(T.Fire(s.(timers := s.timers - {id}), s.timers[id].key), lost, idle, connect)
  {
    PassesIsPresent(s, id);
    KindOfKey(s, id);
    hide T.Key;
  }

  lemma FireStamped(s: T.State, id: nat)
    requires T.Stamped(s) && id in s.timers
    ensures T.Stamped(T.Fire(s.(timers := s.timers - {id}), s.timers[id].key))
  {
    hide T.Key;
  }

  lemma KindOfKey(s: T.State, id: nat)
    requires T.Stamped(s) && id in s.timers
    ensures s.timers[id].key % 256 == T.KindOctet(s.timers[id].kind)
  {
    T.KeyParts(s.timers[id].stamp % T.WORD, s.timers[id].kind);
    hide T.Key;
  }

  lemma GoneSound(s: T.State, lost: set<nat>, id: nat)
    requires Sound(s, lost, false, false) && id in s.timers
    ensures Sound(s.(timers := s.timers - {id}), lost, false, false)
  {
    hide T.Key;
  }

  lemma RungSound(x: Joint, id: nat)
    requires Sound(x.s, x.lost, For(T.Idle, x.v), For(T.Connect, x.v)) && id in x.s.timers
    ensures var a := Effect(x, id).Nothing?;
            Sound(Rung(x.s, id, x.v.closed, Effect(x, id)), x.lost, a && For(T.Idle, x.v), a && For(T.Connect, x.v))
  {
    KindOfKey(x.s, id);
    FireStamped(x.s, id);
    hide Sound, T.Passes, T.Stamped, T.Fire, CancelBoth, T.Key;
    var key := x.s.timers[id].key;
    if x.v.closed {
      GoneSound(x.s, x.lost, id);
    } else if Effect(x, id).Nothing? {
      FireSound(x.s, x.lost, For(T.Idle, x.v), For(T.Connect, x.v), id);
    } else {
      BothSound(T.Fire(x.s.(timers := x.s.timers - {id}), key), x.lost);
    }
  }

  lemma LeftSound(s: T.State, lost: set<nat>, idle: bool, connect: bool, closed: bool)
    requires Sound(s, lost, idle, connect)
    ensures Sound(Left(s, closed), lost, !closed && idle, !closed && connect)
  {
    BothSound(s, lost);
    hide T.Stamped, Held, Sole, CancelBoth;
  }

  lemma EnteredSound(l: Limits, s: T.State, lost: set<nat>, v: State, e: Event, idle: Option<nat>)
    requires !v.closed && Sound(s, lost, For(T.Idle, v), For(T.Connect, v)) && (idle.Some? ==> idle.value !in s.used)
    ensures Sound(Entered(l, s, v, e, idle), lost, For(T.Idle, v), For(T.Connect, v) && !e.Connected?)
    ensures Entered(l, s, v, e, idle).used <= s.used + if idle.Some? then {idle.value} else {}
  {
    CancelSound(s, lost, For(T.Idle, v), For(T.Connect, v), T.Connect);
    ArmSound(s, lost, For(T.Idle, v), For(T.Connect, v), T.Idle, l.idle, idle);
    Cancelled(s, T.Connect);
    Cancelled(s, T.Idle);
    hide Sound, T.Cancel, T.Key;
  }

  lemma MovedSound(l: Limits, s: T.State, lost: set<nat>, idle: bool, connect: bool, from: Mode, to: Mode, timer: Option<nat>)
    requires Sound(s, lost, idle, connect) && (timer.Some? ==> timer.value !in s.used)
    ensures Sound(Moved(l, s, from, to, timer), lost, idle && from == to, if from == to then connect else to.Connecting? || (connect && !to.Closing?))
  {
    CancelSound(s, lost, idle, connect, T.Idle);
    Cancelled(s, T.Idle);
    var t := T.Cancel(s, T.Idle);
    ArmSound(t, lost, false, connect, T.Connect, l.connect, timer);
    BothSound(s, lost);
    hide Sound, T.Cancel, T.Arm, CancelBoth;
  }

  // ----- Which timer the session holds

  predicate On(l: Limits, k: Kind) {
    if k.Idle? then l.idle else l.connect
  }

  lemma CancelConfigured(l: Limits, s: T.State, k: Kind)
    requires Configured(l, s)
    ensures Configured(l, T.Cancel(s, k))
  {
  }

  lemma ArmConfigured(l: Limits, s: T.State, k: Kind, timer: Option<nat>)
    requires Configured(l, s)
    ensures Configured(l, T.Arm(s, k, On(l, k), timer))
  {
    hide T.Key;
  }

  lemma LeftConfigured(l: Limits, s: T.State, closed: bool)
    requires Configured(l, s)
    ensures Configured(l, CancelBoth(s)) && Configured(l, Left(s, closed))
  {
    hide Configured, T.Cancel;
    CancelConfigured(l, s, T.Connect);
    CancelConfigured(l, T.Cancel(s, T.Connect), T.Idle);
  }

  lemma TouchedConfigured(l: Limits, s: T.State, v: State, e: Event, w: State, idle: Option<nat>, connect: Option<nat>)
    requires Configured(l, s)
    ensures Configured(l, Touched(l, s, v, e, w, idle, connect))
  {
    hide Configured, T.Cancel, T.Arm, CancelBoth, Left;
    ArmConfigured(l, s, T.Idle, idle);
    CancelConfigured(l, s, T.Connect);
    var t := Entered(l, s, v, e, idle);
    CancelConfigured(l, t, T.Idle);
    ArmConfigured(l, T.Cancel(t, T.Idle), T.Connect, connect);
    LeftConfigured(l, t, true);
    LeftConfigured(l, Moved(l, t, v.mode, w.mode, connect), w.closed);
  }

  lemma RungConfigured(l: Limits, s: T.State, id: nat, closed: bool, effect: T.Effect)
    requires Configured(l, s) && id in s.timers
    ensures Configured(l, Rung(s, id, closed, effect))
  {
    hide CancelBoth, Left;
    LeftConfigured(l, T.Fire(s.(timers := s.timers - {id}), s.timers[id].key), !effect.Nothing?);
  }

  lemma NextConfigured(c: Config, l: Limits, x: Joint, t: Tick)
    requires Configured(l, x.s) && Ready(c, l, x, t)
    ensures Configured(l, Next(c, l, x, t).s)
  {
    hide Step, Enabled, Touched, Rung, T.Acts, T.Apply;
    match t
    case Handles(e, idle, connect) => TouchedConfigured(l, x.s, x.v, e, Step(c, x.v, e), idle, connect);
    case Delivers(id, _) => RungConfigured(l, x.s, id, x.v.closed, Effect(x, id));
    case _ =>
  }

  /** The step asks for a timer of this kind: it takes octets of the dialogue, or starts a connect. */
  predicate Asks(v: State, t: Tick, w: State, k: Kind) {
    t.Handles? && if k.Idle? then t.e.ClientRecv? else StartsConnect(v, t.e, w)
  }

  function Grant(t: Tick, k: Kind): Option<nat>
    requires t.Handles?
  {
    if k.Idle? then t.idle else t.connect
  }

  lemma CancelIds(s: T.State, k: Kind)
    ensures T.Cancel(s, T.Connect).idle == s.idle && T.Cancel(s, T.Idle).connect == s.connect
    ensures T.Cancel(s, k).used == s.used
  {
  }

  lemma ArmIds(s: T.State, timer: Option<nat>)
    ensures T.Arm(s, T.Idle, true, timer).idle.id == timer && T.Arm(s, T.Connect, true, timer).connect.id == timer
    ensures forall on :: T.Arm(s, T.Idle, on, timer).connect == s.connect && T.Arm(s, T.Connect, on, timer).idle == s.idle
  {
    hide T.Key;
  }

  /** The end of a stream in the dialogue closes the session. */
  lemma EndsDialogue(c: Config, v: State, e: Event)
    requires !v.closed && v.mode.Parsing? && e.ClientRecv? && e.data == []
    ensures Step(c, v, e).closed
  {
  }

  lemma HandlesGrants(c: Config, l: Limits, x: Joint, t: Tick, k: Kind)
    requires Ready(c, l, x, t) && t.Handles? && For(k, Next(c, l, x, t).v) && On(l, k)
    ensures var y := Next(c, l, x, t);
            if Asks(x.v, t, y.v, k) then T.Of(y.s, k).id == Grant(t, k) else For(k, x.v) && T.Of(y.s, k).id == T.Of(x.s, k).id
  {
    var v, e, w := x.v, t.e, Step(c, x.v, t.e);
    if v.closed {
      ClosedStays(c, v, e);
    }
    if v.mode.Parsing? && e.ClientRecv? && e.data == [] {
      EndsDialogue(c, v, e);
    }
    StepModes(c, v, e);
    hide Step, Enabled, T.Cancel, T.Arm;
    var u := Entered(l, x.s, v, e, t.idle);
    CancelIds(x.s, T.Idle);
    CancelIds(u, T.Idle);
    ArmIds(x.s, t.idle);
    ArmIds(T.Cancel(u, T.Idle), t.connect);
  }

  lemma AppliedEnds(c: Config, v: State, effect: T.Effect, o: Posts, k: Kind)
    requires !effect.Nothing?
    ensures !For(k, T.Apply(c, v, effect, o))
  {
    hide FailAndClose;
    if v.closed {
      FailedClosed(c, v, o);
    } else {
      FailModes(c, v, TTL_EXPIRED, o.clientSend);
    }
  }

  lemma FailedClosed(c: Config, v: State, o: Posts)
    requires v.closed
    ensures FailAndClose(c, v, TTL_EXPIRED, o.clientSend) == v
  {
  }

  lemma DeliversGrants(c: Config, l: Limits, x: Joint, t: Tick, k: Kind)
    requires Ready(c, l, x, t) && t.Delivers? && For(k, Next(c, l, x, t).v)
    ensures var y := Next(c, l, x, t); For(k, x.v) && T.Of(y.s, k).id == T.Of(x.s, k).id && Effect(x, t.id).Nothing? && y.v == x.v
  {
    var effect := Effect(x, t.id);
    if !effect.Nothing? {
      AppliedEnds(c, x.v, effect, t.o, k);
      assert false;
    }
    NothingApplied(c, x.v, t.o);
    hide T.Apply, CancelBoth;
  }

  lemma NextGrants(c: Config, l: Limits, x: Joint, t: Tick, k: Kind)
    requires Ready(c, l, x, t) && For(k, Next(c, l, x, t).v) && On(l, k)
    ensures var y := Next(c, l, x, t);
            if Asks(x.v, t, y.v, k) then T.Of(y.s, k).id == Grant(t, k) else For(k, x.v) && T.Of(y.s, k).id == T.Of(x.s, k).id
  {
    match t
    case Handles(_, _, _) => HandlesGrants(c, l, x, t, k);
    case Delivers(_, _) => DeliversGrants(c, l, x, t, k);
    case _ =>
  }

  // ----- Every step

  lemma TouchedSound(c: Config, l: Limits, x: Joint, t: Tick)
    requires Sound(x.s, x.lost, For(T.Idle, x.v), For(T.Connect, x.v)) && Ready(c, l, x, t) && t.Handles?
    ensures var y := Next(c, l, x, t); Sound(y.s, y.lost, For(T.Idle, y.v), For(T.Connect, y.v))
  {
    var v, e, w := x.v, t.e, Step(c, x.v, t.e);
    if v.closed {
      ClosedStays(c, v, e);
    } else {
      StepModes(c, v, e);
      hide Step, Enabled, Sound, Moved, Entered, Left;
      var idle, connect := For(T.Idle, v), For(T.Connect, v);
      EnteredSound(l, x.s, x.lost, v, e, t.idle);
      var u := Entered(l, x.s, v, e, t.idle);
      connect := connect && !e.Connected?;
      MovedSound(l, u, x.lost, idle, connect, v.mode, w.mode, t.connect);
      u := Moved(l, u, v.mode, w.mode, t.connect);
      idle, connect := idle && v.mode == w.mode, if v.mode == w.mode then connect else w.mode.Connecting? || (connect && !w.mode.Closing?);
      LeftSound(u, x.lost, idle, connect, w.closed);
      MoreSound(Left(u, w.closed), x.lost, !w.closed && idle, !w.closed && connect);
    }
  }

  lemma DeliveredSound(c: Config, l: Limits, x: Joint, t: Tick)
    requires Sound(x.s, x.lost, For(T.Idle, x.v), For(T.Connect, x.v)) && Ready(c, l, x, t) && t.Delivers?
    ensures var y := Next(c, l, x, t); Sound(y.s, y.lost, For(T.Idle, y.v), For(T.Connect, y.v))
  {
    hide Sound, Rung, T.Apply;
    RungSound(x, t.id);
    NothingApplied(c, x.v, t.o);
    if !Effect(x, t.id).Nothing? {
      AppliedEnds(c, x.v, Effect(x, t.id), t.o, T.Idle);
      AppliedEnds(c, x.v, Effect(x, t.id), t.o, T.Connect);
    }
  }

  lemma NextClocked(c: Config, l: Limits, x: Joint, t: Tick)
    requires Clocked(l, x) && Ready(c, l, x, t)
    ensures Clocked(l, Next(c, l, x, t))
  {
    var y := Next(c, l, x, t);
    if For(T.Connect, y.v) && l.connect {
      NextGrants(c, l, x, t, T.Connect);
    }
    NextConfigured(c, l, x, t);
    hide Sound, For, Step, Enabled, Configured;
    match t
    case Handles(_, _, _) => TouchedSound(c, l, x, t);
    case Delivers(_, _) => DeliveredSound(c, l, x, t);
    case Claims(id) => ClaimSound(x.s, x.lost, For(T.Idle, x.v), For(T.Connect, x.v), id);
    case Discards(id) => DropSound(x.s, x.lost, For(T.Idle, x.v), For(T.Connect, x.v), id);
  }

  lemma BegunClocked(l: Limits, idle: Option<nat>)
    ensures Clocked(l, Begun(l, idle))
  {
    T.FirstStamped();
    assert Sound(T.FIRST, {}, true, false);
    ArmConfigured(l, T.FIRST, T.Idle, idle);
    hide Sound, T.Arm, Configured;
    ArmSound(T.FIRST, {}, true, false, T.Idle, l.idle, idle);
  }

  lemma {:induction false} EveryClocked(c: Config, l: Limits, first: Option<nat>, run: seq<Joint>, ts: seq<Tick>, n: nat)
    requires IsJoint(c, l, first, run, ts) && n < |run|
    ensures Clocked(l, run[n])
    decreases n
  {
    hide Clocked, Next, Ready, Begun;
    if n == 0 {
      BegunClocked(l, first);
    } else {
      EveryClocked(c, l, first, run, ts, n - 1);
      NextClocked(c, l, run[n - 1], ts[n - 1]);
    }
  }

  // ----- What a delivered timer does

  /** The id, if any, that the port gave the last time the session asked for such a timer. */
  ghost function Granted(first: Option<nat>, run: seq<Joint>, ts: seq<Tick>, k: Kind, n: nat): Option<nat>
    requires n < |run| == |ts| + 1
  {
    if n == 0 then if k.Idle? then first else None
    else if Asks(run[n - 1].v, ts[n - 1], run[n].v, k) then Grant(ts[n - 1], k)
    else Granted(first, run, ts, k, n - 1)
  }

  lemma {:induction false} HoldsGranted(c: Config, l: Limits, first: Option<nat>, run: seq<Joint>, ts: seq<Tick>, k: Kind, n: nat)
    requires IsJoint(c, l, first, run, ts) && n < |run| && For(k, run[n].v) && On(l, k)
    ensures T.Of(run[n].s, k).id == Granted(first, run, ts, k, n)
    decreases n
  {
    hide Next, Ready, For, Asks, Grant, Begun, On;
    if n == 0 {
      BegunHolds(l, first, k);
    } else {
      NextGrants(c, l, run[n - 1], ts[n - 1], k);
      if !Asks(run[n - 1].v, ts[n - 1], run[n].v, k) {
        HoldsGranted(c, l, first, run, ts, k, n - 1);
      }
    }
  }

  lemma BegunHolds(l: Limits, first: Option<nat>, k: Kind)
    requires For(k, Begun(l, first).v) && On(l, k)
    ensures k.Idle? && Begun(l, first).s.idle.id == first
  {
    ArmIds(T.FIRST, first);
    hide T.Arm;
  }

  /** A timer passes the generation test exactly when it is the one held, for the mode it was armed for, and the key can hold its generation. */
  lemma PassesHeld(l: Limits, x: Joint, id: nat)
    requires Clocked(l, x) && id in x.s.timers && T.Of(x.s, x.s.timers[id].kind).raised < T.WORD
    ensures var k := x.s.timers[id].kind;
            T.Passes(x.s, x.s.timers[id].key) <==> For(k, x.v) && On(l, k) && T.Of(x.s, k).id == Some(id) && T.Of(x.s, k).raised < T.SHIFTED
  {
    PassesIsPresent(x.s, id);
    hide T.Passes, T.Stamped;
  }

  /**
   Whatever the race between cancel and delivery: a delivered timer acts if and only if the session
   is open, still in the mode that the timer is for, and has asked for no other since this one was
   granted, and the generation fits the 56 bits of the key. The tests of the state that follow the
   generation test decide nothing. (Fewer than 2^64 arms and cancels.)
   */
  lemma TimerActsExactly(c: Config, l: Limits, first: Option<nat>, run: seq<Joint>, ts: seq<Tick>, n: nat)
    requires IsJoint(c, l, first, run, ts) && n < |ts| && ts[n].Delivers?
    requires ts[n].id in run[n].s.timers && T.Of(run[n].s, run[n].s.timers[ts[n].id].kind).raised < T.WORD
    ensures var x, id := run[n], ts[n].id;
            var k := x.s.timers[id].kind;
            var due := For(k, x.v) && On(l, k) && Granted(first, run, ts, k, n) == Some(id) && T.Of(x.s, k).raised < T.SHIFTED;
            && (T.Passes(x.s, x.s.timers[id].key) <==> due)
            && run[n + 1].v == if !due then x.v else if k.Idle? then Close(x.v) else FailAndClose(c, x.v, TTL_EXPIRED, ts[n].o.clientSend)
  {
    var x, id := run[n], ts[n].id;
    var k := x.s.timers[id].kind;
    EveryClocked(c, l, first, run, ts, n);
    KindOfKey(x.s, id);
    PassesHeld(l, x, id);
    assert run[n + 1] == Next(c, l, x, ts[n]);
    if For(k, x.v) && On(l, k) {
      HoldsGranted(c, l, first, run, ts, k, n);
    }
    hide IsJoint, Granted, T.Passes, T.Key, Clocked, FailAndClose, Rung;
  }

  /**
   A session that waits for its dialogue or its connect is not left without the timer it was given:
   that timer is scheduled or on its way, unless the port discarded it. A connect always has one.
   */
  lemma TimerStands(c: Config, l: Limits, first: Option<nat>, run: seq<Joint>, ts: seq<Tick>, k: Kind, n: nat)
    requires IsJoint(c, l, first, run, ts) && n < |run| && For(k, run[n].v) && On(l, k) && T.Of(run[n].s, k).raised < T.SHIFTED
    ensures var id := Granted(first, run, ts, k, n);
            && (k.Connect? ==> id.Some?)
            && (id.Some? ==> (id.value in run[n].s.timers && run[n].s.timers[id.value].kind == k) || id.value in run[n].lost)
  {
    EveryClocked(c, l, first, run, ts, n);
    HoldsGranted(c, l, first, run, ts, k, n);
    hide IsJoint, Granted, T.Stamped, Sole;
  }

  /** This id was granted for step m, and no such timer was asked for since. */
  ghost predicate GrantedAt(first: Option<nat>, run: seq<Joint>, ts: seq<Tick>, k: Kind, id: nat, m: nat, n: nat)
    requires m <= n < |run| == |ts| + 1
  {
    && (if m == 0 then k.Idle? && first == Some(id) else Asks(run[m - 1].v, ts[m - 1], run[m].v, k) && Grant(ts[m - 1], k) == Some(id))
    && forall j: nat | m < j <= n :: !AskedBy(run, ts, k, j)
  }

  ghost predicate AskedBy(run: seq<Joint>, ts: seq<Tick>, k: Kind, j: nat)
    requires 0 < j < |run| == |ts| + 1
  {
    Asks(run[j - 1].v, ts[j - 1], run[j].v, k)
  }

  lemma {:induction false} GrantedExactly(first: Option<nat>, run: seq<Joint>, ts: seq<Tick>, k: Kind, id: nat, n: nat)
    requires n < |run| == |ts| + 1
    ensures Granted(first, run, ts, k, n) == Some(id) <==> exists m: nat :: m <= n && GrantedAt(first, run, ts, k, id, m, n)
    decreases n
  {
    hide Asks, Grant;
    if n == 0 {
      assert GrantedAt(first, run, ts, k, id, 0, 0) <==> Granted(first, run, ts, k, 0) == Some(id);
    } else if AskedBy(run, ts, k, n) {
      assert GrantedAt(first, run, ts, k, id, n, n) <==> Granted(first, run, ts, k, n) == Some(id);
    } else {
      var p := n - 1;
      GrantedExactly(first, run, ts, k, id, p);
      assert !GrantedAt(first, run, ts, k, id, n, n);
      forall m: nat | m < n ensures GrantedAt(first, run, ts, k, id, m, n) <==> GrantedAt(first, run, ts, k, id, m, p) {
        GrantedOn(first, run, ts, k, id, m, n);
      }
      hide GrantedAt;
      if m: nat :| m <= p && GrantedAt(first, run, ts, k, id, m, p) {
        assert GrantedAt(first, run, ts, k, id, m, n);
      }
    }
  }

  lemma GrantedOn(first: Option<nat>, run: seq<Joint>, ts: seq<Tick>, k: Kind, id: nat, m: nat, n: nat)
    requires m < n < |run| == |ts| + 1 && !AskedBy(run, ts, k, n)
    ensures GrantedAt(first, run, ts, k, id, m, n) <==> GrantedAt(first, run, ts, k, id, m, n - 1)
  {
    hide AskedBy, Asks, Grant;
  }

  /** Relaying, serving datagrams or closing: no timer is for these modes. */
  predicate Settled(v: State) {
    v.closed || v.mode.Relaying? || v.mode.Udp? || v.mode.Closing?
  }

  lemma NextSettled(c: Config, l: Limits, x: Joint, t: Tick)
    requires Ready(c, l, x, t) && Settled(x.v)
    ensures Settled(Next(c, l, x, t).v) && (t.Delivers? ==> Next(c, l, x, t).v == x.v)
  {
    match t
    case Handles(e, _, _) =>
      if x.v.closed {
        ClosedStays(c, x.v, e);
      } else {
        StepModes(c, x.v, e);
      }
      hide Step, Touched;
    case Delivers(id, o) =>
      NothingApplied(c, x.v, o);
      hide T.Apply, T.Passes, Rung;
    case _ =>
  }

  lemma {:induction false} StaysSettled(c: Config, l: Limits, first: Option<nat>, run: seq<Joint>, ts: seq<Tick>, m: nat, n: nat)
    requires IsJoint(c, l, first, run, ts) && m <= n < |run| && Settled(run[m].v)
    ensures Settled(run[n].v)
    decreases n
  {
    hide Next, Ready, Settled, Begun;
    if m < n {
      StaysSettled(c, l, first, run, ts, m, n - 1);
      NextSettled(c, l, run[n - 1], ts[n - 1]);
    }
  }

  /** Once the result of the connect was handled no timer delivered later touches the session, whatever its generation. */
  lemma NoTimeoutAfterConnect(c: Config, l: Limits, first: Option<nat>, run: seq<Joint>, ts: seq<Tick>, m: nat, n: nat)
    requires IsJoint(c, l, first, run, ts) && m < n < |ts| && ts[n].Delivers?
    requires ts[m].Handles? && ts[m].e.Connected? && run[m].v.mode.Connecting?
    ensures run[n + 1].v == run[n].v
  {
    var v, e := run[m].v, ts[m].e;
    assert Ready(c, l, run[m], ts[m]) && run[m + 1].v == Step(c, v, e);
    assert Ready(c, l, run[n], ts[n]) && run[n + 1] == Next(c, l, run[n], ts[n]);
    if v.closed {
      ClosedStays(c, v, e);
    } else {
      StepModes(c, v, e);
    }
    hide Step, Next, Ready;
    StaysSettled(c, l, first, run, ts, m + 1, n);
    NextSettled(c, l, run[n], ts[n]);
  }
}
