/** The arming counter, the kill switch and the path from thrust stick to propellers. */
module MercuryAutopilot {
  import opened CInts
  import opened MotorMixing

  const MAX_PPRZ := 9600
  const MOTOR_ON_TIME := 128
  const THROTTLE_THRESHOLD := -6720
  const YAW_THRESHOLD := 6720

  /** What one period reads: sticks, the caller's flags, and the stabilization commands. */
  datatype Inputs = Inputs(throttle: int16, yaw: int16, inFlight: uint8, kill: uint8,
                           roll: int32, pitch: int32, yawCmd: int32)

  /** What can be set from the ground: which propellers run, and throttle pass-through. */
  datatype Settings = Settings(enable: seq<uint8>, throttlePass: uint8)

  predicate Complete(cfg: Settings) {
    |cfg.enable| == PROPS_NB
  }

  datatype State = State(motorsOn: bool, counter: uint32, inFlight: bool, inFlightCounter: uint32)

  type Speeds = s: seq<uint8> | |s| == PROPS_NB witness [0, 0, 0, 0]

  predicate Held(i: Inputs) {
    i.throttle < THROTTLE_THRESHOLD && (i.yaw > YAW_THRESHOLD || i.yaw < -YAW_THRESHOLD)
  }

  function CheckMotorsOn(s: State, i: Inputs): State {
    if s.motorsOn then s
    else if !Held(i) then s.(counter := 0)
    else if s.counter >= MOTOR_ON_TIME then s
    else if s.counter + 1 == MOTOR_ON_TIME then
      s.(counter := MOTOR_ON_TIME, motorsOn := true,
         inFlightCounter := ToUint32(s.inFlightCounter + MOTOR_ON_TIME))
    else s.(counter := s.counter + 1)
  }

  function NextState(s: State, i: Inputs): State {
    var c := CheckMotorsOn(s, i);
    c.(motorsOn := c.motorsOn && i.kill == 0, inFlight := i.inFlight != 0)
  }

  function Thrust(throttle: int16): int32 {
    TruncDiv(throttle * 105, 7200) + 95
  }

  function CommandsOf(i: Inputs, inFlight: bool, motorsOn: bool): Commands {
    Commands(ToInt16(i.roll), ToInt16(i.pitch),
             if inFlight then ToInt16(i.yawCmd) else 0,
             if motorsOn then ToInt16(Thrust(i.throttle)) else 0)
  }

  function Mixed(s: State, i: Inputs, cfg: Settings, f: Airframe): Motors {
    if s.motorsOn && cfg.throttlePass != 0 then
      var t := Bound(Thrust(i.throttle), 0, 255);
      [t, t, t, t]
    else Run(CommandsOf(i, s.inFlight, s.motorsOn), f, s.motorsOn)
  }

  function Enabled(mixed: Motors, cfg: Settings, k: nat): uint8
    requires Complete(cfg) && k < PROPS_NB
  {
    if cfg.enable[k] != 0 then ToUint8(mixed[k]) else 0
  }

  function PropSpeeds(s: State, i: Inputs, cfg: Settings, f: Airframe): Speeds
    requires Complete(cfg)
  {
    var m := Mixed(s, i, cfg, f);
    [Enabled(m, cfg, 0), Enabled(m, cfg, 1), Enabled(m, cfg, 2), Enabled(m, cfg, 3)]
  }

  /** The autopilot's variables. committed: the propeller speeds of every period so far. */
  class Autopilot {
    var motorsOn: bool
    var motorsOnCounter: uint32
    var inFlight: bool
    var inFlightCounter: uint32
    const mixedCommands: array<int16>
    const propSpeeds: array<uint8>
    var committed: seq<Speeds>

    ghost predicate Valid() {
      mixedCommands.Length == PROPS_NB && propSpeeds.Length == PROPS_NB
    }

    ghost function Model(): State
      reads this
    {
      State(motorsOn, motorsOnCounter, inFlight, inFlightCounter)
    }

    constructor ()
      ensures Valid() && fresh(mixedCommands) && fresh(propSpeeds)
      ensures Model() == Initial() && committed == []
    {
      motorsOn, inFlight := false, false;
      motorsOnCounter, inFlightCounter := 0, 0;
      committed := [];
      mixedCommands := new int16[PROPS_NB];
      propSpeeds := new uint8[PROPS_NB];
    }

    method CheckMotors(i: Inputs)
      modifies this`motorsOn, this`motorsOnCounter, this`inFlightCounter
      ensures Model() == CheckMotorsOn(old(Model()), i)
    {
      if !motorsOn {
        if i.throttle < THROTTLE_THRESHOLD && (i.yaw > YAW_THRESHOLD || i.yaw < -YAW_THRESHOLD) {
          if motorsOnCounter < MOTOR_ON_TIME {
            motorsOnCounter := motorsOnCounter + 1;
            if motorsOnCounter == MOTOR_ON_TIME {
              motorsOn := true;
              inFlightCounter := ToUint32(inFlightCounter + MOTOR_ON_TIME);
            }
          }
        } else {
          motorsOnCounter := 0;
        }
      }
    }

    method SetProps(cfg: Settings)
      requires Valid() && Complete(cfg)
      modifies propSpeeds
      ensures forall k :: 0 <= k < PROPS_NB ==> propSpeeds[k] == Enabled(mixedCommands[..], cfg, k)
    {
      for k := 0 to PROPS_NB
        invariant mixedCommands[..] == old(mixedCommands[..])
        invariant forall j :: 0 <= j < k ==> propSpeeds[j] == Enabled(mixedCommands[..], cfg, j)
      {
        if cfg.enable[k] != 0 {
          propSpeeds[k] := ToUint8(mixedCommands[k]);
        } else {
          propSpeeds[k] := 0;
        }
      }
    }

    /** One period. */
    method Periodic(i: Inputs, cfg: Settings, f: Airframe)
      requires Valid() && Complete(cfg)
      modifies this, mixedCommands, propSpeeds
      ensures Model() == NextState(old(Model()), i)
      ensures committed == old(committed) + [PropSpeeds(Model(), i, cfg, f)]
    {
      hide Thrust, CommandsOf, Run, Bound;
      CheckMotors(i);
      if i.kill != 0 { motorsOn := false; }
      inFlight := i.inFlight != 0;
      var thrust := Thrust(i.throttle);
      SupervisionRun(mixedCommands, CommandsOf(i, inFlight, motorsOn), f, motorsOn);
      if motorsOn && cfg.throttlePass != 0 {
        BoundIsByte(thrust);
        thrust := Bound(thrust, 0, 255);
        for k := 0 to PROPS_NB
          invariant Model() == NextState(old(Model()), i) && committed == old(committed)
          invariant forall j :: 0 <= j < k ==> mixedCommands[j] == thrust
        {
          mixedCommands[k] := thrust;
        }
      }
      assert mixedCommands[..] == Mixed(Model(), i, cfg, f);
      SetProps(cfg);
      assert propSpeeds[..] == PropSpeeds(Model(), i, cfg, f);
      committed := committed + [propSpeeds[..]];
    }
  }

  lemma BoundIsByte(x: int)
    ensures 0 <= Bound(x, 0, 255) <= 255
  {
  }

  function Initial(): State {
    State(false, 0, false, 0)
  }

  // ---------------------------------------------------------------- one period

  /** A period with the kill flag drives every propeller to zero and disarms. */
  lemma KillStops(s: State, i: Inputs, cfg: Settings, f: Airframe)
    requires Complete(cfg) && i.kill != 0
    ensures !NextState(s, i).motorsOn
    ensures PropSpeeds(NextState(s, i), i, cfg, f) == [0, 0, 0, 0]
  {
  }

  /** The enable flags: a disabled propeller stands, an enabled one shows no other flag. */
  lemma EnableFlags(s: State, i: Inputs, cfg: Settings, other: Settings, f: Airframe, k: nat)
    requires Complete(cfg) && Complete(other) && k < PROPS_NB && cfg.throttlePass == other.throttlePass
    ensures cfg.enable[k] == 0 ==> PropSpeeds(s, i, cfg, f)[k] == 0
    ensures cfg.enable[k] != 0 ==> (Mixed(s, i, cfg, f)[k] - PropSpeeds(s, i, cfg, f)[k]) % 256 == 0
    ensures cfg.enable[k] != 0 && other.enable[k] != 0 ==>
              PropSpeeds(s, i, cfg, f)[k] == PropSpeeds(s, i, other, f)[k]
  {
    hide Thrust, Run, CommandsOf;
    Uint8Iff(Mixed(s, i, cfg, f)[k], PropSpeeds(s, i, cfg, f)[k]);
  }

  /** The thrust command: the throttle times 105 / 7200, rounded toward zero, over 95. */
  lemma ThrustMeans(throttle: int16, t: int32)
    ensures t == Thrust(throttle) <==> IsTruncated(throttle * 105, 7200, t - 95)
  {
    TruncDivIff(throttle * 105, 7200, t - 95);
  }

  /** With pass-through every enabled propeller gets the thrust command clamped to a byte. */
  lemma PassThrough(s: State, i: Inputs, cfg: Settings, f: Airframe, k: nat, t: int32)
    requires Complete(cfg) && k < PROPS_NB && s.motorsOn && cfg.throttlePass != 0
    requires cfg.enable[k] != 0 && IsTruncated(i.throttle * 105, 7200, t - 95)
    ensures PropSpeeds(s, i, cfg, f)[k] == if t < 0 then 0 else if t > 255 then 255 else t
  {
    ThrustMeans(i.throttle, t);
    hide Thrust, Run;
  }

  /** Outside of flight no propeller shows the yaw command, and with motors off none the sticks. */
  lemma Gates(s: State, i: Inputs, cfg: Settings, f: Airframe, yawCmd: int32)
    requires Complete(cfg)
    ensures !s.inFlight ==> PropSpeeds(s, i, cfg, f) == PropSpeeds(s, i.(yawCmd := yawCmd), cfg, f)
    ensures !s.motorsOn ==> PropSpeeds(s, i, cfg, f) == [0, 0, 0, 0]
    ensures !s.motorsOn ==> CommandsOf(i, s.inFlight, s.motorsOn).thrust == 0
  {
    hide Thrust, Supervised, Raw, Stored;
  }

  /**
   What a period mixes while the motors are on: the thrust command on average, and the roll,
   pitch and yaw commands on the three axes; yaw counts in flight only, times its gain over 20.
   */
  lemma CommandsInMix(i: Inputs, inFlight: bool, f: Airframe, t: int16, y: int)
    requires IsTruncated(i.throttle * 105, 7200, t - 95)
    requires if inFlight then IsTruncated(f.yawGain * ToInt16(i.yawCmd), 20, y) else y == 0
    ensures var raw := Raw(CommandsOf(i, inFlight, true), f);
            && raw[0] + raw[1] + raw[2] + raw[3] == 4 * t
            && raw[0] + raw[2] - raw[1] - raw[3] == 4 * (ToInt16(i.roll) + f.trims.a)
            && raw[1] + raw[2] - raw[0] - raw[3] == 4 * (ToInt16(i.pitch) + f.trims.e)
            && raw[0] + raw[1] - raw[2] - raw[3] == 4 * (y + f.trims.r)
  {
    ThrustMeans(i.throttle, t);
    Int16Iff(t, t);
    var c := CommandsOf(i, inFlight, true);
    assert c.thrust == t by { hide ToInt16, Thrust; }
    assert f.yawGain * 0 == 0;
    hide Thrust, Raw, ToInt16, RawMix;
    RawBalances(c, f, y);
  }

  // Exactly a mix that fits 16 bits is stored as it is
  lemma StoredExact(raw: seq<int>)
    requires |raw| == PROPS_NB
    ensures Stored(raw) == raw <==> forall k :: 0 <= k < PROPS_NB ==> -0x8000 <= raw[k] < 0x8000
  {
    var s := Stored(raw);
    assert s[0] == ToInt16(raw[0]) && s[1] == ToInt16(raw[1]);
    assert s[2] == ToInt16(raw[2]) && s[3] == ToInt16(raw[3]);
  }

  lemma SpeedsAreMix(s: State, i: Inputs, cfg: Settings, f: Airframe, o: Motors)
    requires Complete(cfg) && cfg.throttlePass == 0
    requires forall k :: 0 <= k < PROPS_NB ==> cfg.enable[k] != 0
    requires s.motorsOn && o == Run(CommandsOf(i, s.inFlight, true), f, true)
    requires InRange(o, 0, 255)
    ensures PropSpeeds(s, i, cfg, f) == o
  {
    hide CommandsOf, Run;
    assert forall k :: 0 <= k < PROPS_NB ==> ToUint8(o[k]) == o[k];
  }

  /**
   With motors on, no pass-through and every propeller enabled, the speeds follow the stored
   mix m: always in the motor range, in its order exactly when OrderSurvives says so, with its
   differences exactly when they fit the range.
   */
  lemma SpeedsFollowMix(s: State, i: Inputs, cfg: Settings, f: Airframe, m: Motors)
    requires Complete(cfg) && cfg.throttlePass == 0
    requires forall k :: 0 <= k < PROPS_NB ==> cfg.enable[k] != 0
    requires s.motorsOn && 0 <= f.lo <= f.hi <= 255
    requires m == Stored(Raw(CommandsOf(i, s.inFlight, true), f))
    ensures var o := PropSpeeds(s, i, cfg, f);
            && InRange(o, f.lo, f.hi)
            && (OrderKept(m, o) <==> OrderSurvives(m, f.lo, f.hi))
            && (DifferencesKept(m, o) <==> Spread(m) <= f.hi - f.lo)
  {
    hide Supervised, Spread, OrderKept, OrderSurvives, DifferencesKept, PropSpeeds, Raw, CommandsOf, Stored;
    var o := Supervised(m, f.lo, f.hi);
    AlwaysInRange(m, f.lo, f.hi);
    OrderKeptIff(m, f.lo, f.hi);
    DifferencesKeptIff(m, f.lo, f.hi);
    SpeedsAreMix(s, i, cfg, f, o);
  }

  // A throttle for which the thrust command is zero, and the commands of OverflowBreaksOrder
  function StrongCommands(): Inputs {
    Inputs(-6515, 0, 1, 0, -10000, -9996, -10004)
  }

  /** The period can receive a mix whose order is lost: the strongest motor gets the least. */
  lemma SpeedsCanLoseOrder(s: State, cfg: Settings)
    requires Complete(cfg) && cfg.throttlePass == 0
    requires forall k :: 0 <= k < PROPS_NB ==> cfg.enable[k] != 0
    requires s.motorsOn && s.inFlight
    ensures var f := Airframe(10, 200, 20, Trims(0, 0, 0));
            && Raw(CommandsOf(StrongCommands(), true, true), f) == [-10008, -10000, -9992, 30000]
            && PropSpeeds(s, StrongCommands(), cfg, f) == [10, 18, 26, 10]
  {
    hide Run, Raw, PropSpeeds, CommandsOf, StrongCommands, OrderSurvives;
    CommandsOfStrong();
    OverflowBreaksOrder();
    SpeedsAreMix(s, StrongCommands(), cfg, Airframe(10, 200, 20, Trims(0, 0, 0)), [10, 18, 26, 10]);
  }

  lemma CommandsOfStrong()
    ensures CommandsOf(StrongCommands(), true, true) == Commands(-10000, -9996, -10004, 0)
  {
    assert Thrust(-6515) == 0;
  }

  // ---------------------------------------------------------------- runs

  /** A run: states[n + 1] is what period n makes of states[n]. */
  predicate IsRun(states: seq<State>, ins: seq<Inputs>) {
    && |states| == |ins| + 1
    && states[0] == Initial()
    && forall n :: 0 <= n < |ins| ==> states[n + 1] == NextState(states[n], ins[n])
  }

  // The check of period t turns the motors on
  predicate Arms(states: seq<State>, ins: seq<Inputs>, t: nat)
    requires IsRun(states, ins) && t < |ins|
  {
    !states[t].motorsOn && CheckMotorsOn(states[t], ins[t]).motorsOn
  }

  // Counting starts afresh at period u: the run begins, or the stick was released with motors off
  predicate FreshAt(states: seq<State>, ins: seq<Inputs>, u: nat)
    requires IsRun(states, ins) && u <= |ins|
  {
    u == 0 || (!states[u - 1].motorsOn && !Held(ins[u - 1]))
  }

  // From period u up to n the stick was held and the motors were off
  predicate HeldOff(states: seq<State>, ins: seq<Inputs>, u: nat, n: nat)
    requires IsRun(states, ins) && n <= |ins|
  {
    forall v :: u <= v < n ==> Held(ins[v]) && !states[v].motorsOn
  }

  /** The counter is the number of periods the stick has been held since counting started. */
  lemma {:induction false} CounterMeaning(states: seq<State>, ins: seq<Inputs>, n: nat)
    requires IsRun(states, ins) && n <= |ins|
    ensures var c := states[n].counter;
            && c <= MOTOR_ON_TIME
            && (states[n].motorsOn ==> c == MOTOR_ON_TIME)
            && (c < MOTOR_ON_TIME ==> c <= n && FreshAt(states, ins, n - c) && HeldOff(states, ins, n - c, n))
  {
    if n > 0 {
      CounterMeaning(states, ins, n - 1);
      assert states[n] == NextState(states[n - 1], ins[n - 1]);
    }
  }

  lemma {:induction false} HeldCounts(states: seq<State>, ins: seq<Inputs>, u: nat, n: nat)
    requires IsRun(states, ins) && u <= n <= |ins| && n - u < MOTOR_ON_TIME
    requires FreshAt(states, ins, u) && forall v :: u <= v < n ==> Held(ins[v])
    ensures !states[n].motorsOn && states[n].counter == n - u
  {
    if n > 0 {
      assert states[n] == NextState(states[n - 1], ins[n - 1]);
    }
    if u < n {
      HeldCounts(states, ins, u, n - 1);
    }
  }

  /**
   Over every run: the motors are turned on in period t exactly when the stick has been held
   for the last 128 periods and had been released, with motors off, right before them (or the
   run began there); and the motors were off through all of them.
   */
  lemma ArmsIff(states: seq<State>, ins: seq<Inputs>, t: nat)
    requires IsRun(states, ins) && t < |ins|
    ensures Arms(states, ins, t) <==>
            var u := t - 127;
            u >= 0 && FreshAt(states, ins, u) && forall v :: u <= v <= t ==> Held(ins[v])
    ensures Arms(states, ins, t) ==>
            t >= 127 && HeldOff(states, ins, t - 127, t + 1)
  {
    CounterMeaning(states, ins, t);
    var u := t - (MOTOR_ON_TIME - 1);
    if u >= 0 && FreshAt(states, ins, u) && forall v :: u <= v <= t ==> Held(ins[v]) {
      HeldCounts(states, ins, u, t);
    }
  }

  /** Held: throttle and yaw beyond 70 % of the stick range of 9600, throttle down. */
  lemma HeldMeans(i: Inputs)
    ensures Held(i) <==> 10 * i.throttle < -7 * 9600 && (10 * i.yaw > 7 * 9600 || 10 * i.yaw < -7 * 9600)
  {
  }

  // How often the motors were turned on before period n
  function Armings(states: seq<State>, ins: seq<Inputs>, n: nat): nat
    requires IsRun(states, ins) && n <= |ins|
  {
    if n == 0 then 0 else Armings(states, ins, n - 1) + if Arms(states, ins, n - 1) then 1 else 0
  }

  /**
   The in-flight state over every run: the flag is the caller's, and the counter is 128 for
   every time the motors were turned on, modulo 2^32.
   */
  lemma {:induction false} InFlightMeaning(states: seq<State>, ins: seq<Inputs>, n: nat)
    requires IsRun(states, ins) && n <= |ins|
    ensures n > 0 ==> (states[n].inFlight <==> ins[n - 1].inFlight != 0)
    ensures (128 * Armings(states, ins, n) - states[n].inFlightCounter) % 0x1_0000_0000 == 0
  {
    if n > 0 {
      InFlightMeaning(states, ins, n - 1);
      assert states[n] == NextState(states[n - 1], ins[n - 1]);
      var c := states[n - 1].inFlightCounter;
      AddModulo(128 * Armings(states, ins, n - 1), c, 128);
    }
  }

  lemma AddModulo(x: int, c: uint32, d: int)
    requires (x - c) % 0x1_0000_0000 == 0
    ensures (x + d - ToUint32(c + d)) % 0x1_0000_0000 == 0
  {
  }

  /** After a kill the motors stay off until the stick is released and held again. */
  lemma {:induction false} KillNeedsRelease(states: seq<State>, ins: seq<Inputs>, t: nat, n: nat)
    requires IsRun(states, ins) && t < n <= |ins|
    requires CheckMotorsOn(states[t], ins[t]).motorsOn && ins[t].kill != 0
    requires forall v :: t < v < n ==> Held(ins[v])
    ensures !states[n].motorsOn && states[n].counter == MOTOR_ON_TIME
  {
    assert states[n] == NextState(states[n - 1], ins[n - 1]);
    if n == t + 1 {
      CounterMeaning(states, ins, t);
    } else {
      KillNeedsRelease(states, ins, t, n - 1);
    }
  }

  /** Motors are on only since an arming with no kill in between. */
  lemma {:induction false} OnSinceArming(states: seq<State>, ins: seq<Inputs>, n: nat) returns (t: nat)
    requires IsRun(states, ins) && n < |ins| && states[n + 1].motorsOn
    ensures t <= n && Arms(states, ins, t)
    ensures forall v :: t <= v <= n ==> ins[v].kill == 0
    ensures forall v :: t < v <= n + 1 ==> states[v].motorsOn
  {
    assert states[n + 1] == NextState(states[n], ins[n]);
    assert ins[n].kill == 0;
    if states[n].motorsOn {
      t := OnSinceArming(states, ins, n - 1);
    } else {
      t := n;
    }
  }

  /** No propeller turns in period n unless the motors were armed by then and not killed since. */
  lemma SpeedNeedsArming(states: seq<State>, ins: seq<Inputs>, n: nat, cfg: Settings, f: Airframe, k: nat)
      returns (t: nat)
    requires IsRun(states, ins) && n < |ins| && Complete(cfg) && k < PROPS_NB
    requires PropSpeeds(states[n + 1], ins[n], cfg, f)[k] != 0
    ensures MOTOR_ON_TIME - 1 <= t <= n && Arms(states, ins, t)
    ensures HeldOff(states, ins, t - (MOTOR_ON_TIME - 1), t + 1)
    ensures forall v :: t <= v <= n ==> ins[v].kill == 0
  {
    assert states[n + 1].motorsOn by { hide Supervised, CommandsOf, Thrust; }
    t := OnSinceArming(states, ins, n);
    ArmsIff(states, ins, t);
  }
}
