/** The fail-safe hazardous-gas mitigation controller: a six-mode state machine
    that turns six boolean sensor and authorisation signals into an operating
    mode, and drives six actuators from that mode alone. */
module GasSafety {

  /** The operating modes, in the order of the source enumeration
      (S0 Standby … S5 HazardPowerFail). */
  datatype Mode =
    | Standby             // S0: nothing wrong, everything off
    | HazardMitigation    // S1: gas or temperature unsafe, fan and valve engaged
    | FaultMitigation     // S2: mitigation under way but fan current or vent flow failed
    | WaitingForReset     // S3: hazard cleared, alarm held until an operator resets
    | FailsafePowerFail   // S4: mains lost with no hazard under way
    | HazardPowerFail     // S5: mains lost while mitigating a hazard

  /** One cycle's inputs; `true` means nominal, except for `resetAuthorized`,
      where it means an operator has authorised a reset. */
  datatype Sensors = Sensors(
    gasOk: bool,          // G
    tempOk: bool,         // T
    powerOk: bool,        // P
    fanCurrentOk: bool,   // C
    ventFlowOk: bool,     // F
    resetAuthorized: bool // R
  )

  /** The six actuator outputs; `true` means engaged or lit. */
  datatype Actuators = Actuators(
    fan: bool,
    backup: bool,
    valve: bool,
    alarm: bool,
    alert: bool,
    visual: bool
  )

  const ALL_OFF := Actuators(false, false, false, false, false, false)

  // The four conditions derived from the inputs each cycle. Hazard and Safe
  // are defined independently of one another, as the controller computes them.

  predicate Hazard(s: Sensors) { !s.gasOk || !s.tempOk }

  predicate Safe(s: Sensors) { s.gasOk && s.tempOk }

  predicate PowerFail(s: Sensors) { !s.powerOk }

  predicate MitigationFault(s: Sensors) { !s.fanCurrentOk || !s.ventFlowOk }

  /** Hazard and Safe are complements over two-valued sensors. */
  lemma SafeIsNotHazard(s: Sensors)
    ensures Safe(s) <==> !Hazard(s)
  {
  }

  /** The two modes entered on loss of mains power. */
  predicate PowerFailMode(m: Mode) { m == FailsafePowerFail || m == HazardPowerFail }

  /** The modes in which the fan and the shutoff valve are driven. */
  predicate Mitigating(m: Mode) { m == HazardMitigation || m == FaultMitigation || m == HazardPowerFail }

  /** The modes in which the alarm, alert and visual indicator are on. */
  predicate Alarmed(m: Mode) { Mitigating(m) || m == WaitingForReset }

  /** One transition. Each mode tests its conditions in a fixed priority
      order; the first that holds decides, and if none holds the mode stays. */
  function NextMode(m: Mode, s: Sensors): (r: Mode)
    ensures r == FailsafePowerFail <==>
              PowerFail(s) && (m == Standby || m == WaitingForReset || m == FailsafePowerFail)
    ensures r == HazardPowerFail <==>
              PowerFail(s) && (m == HazardMitigation || m == FaultMitigation || m == HazardPowerFail)
    ensures PowerFailMode(r) <==> PowerFail(s)
  {
    match m
    case Standby =>
      if PowerFail(s) then FailsafePowerFail
      else if Hazard(s) then HazardMitigation
      else m
    case HazardMitigation =>
      if PowerFail(s) then HazardPowerFail
      else if MitigationFault(s) then FaultMitigation
      else if Safe(s) then WaitingForReset
      else m
    case FaultMitigation =>
      if PowerFail(s) then HazardPowerFail
      else if Safe(s) then WaitingForReset
      else m
    case WaitingForReset =>
      if PowerFail(s) then FailsafePowerFail
      else if s.resetAuthorized then Standby
      else if Hazard(s) then HazardMitigation
      else m
    case FailsafePowerFail =>
      if !PowerFail(s) then Standby else m
    case HazardPowerFail =>
      if !PowerFail(s) then HazardMitigation else m
  }

  /** The actuator table: a total function of the mode alone. */
  function OutputsFor(m: Mode): (o: Actuators)
    ensures o.backup <==> PowerFailMode(m)
    ensures o.fan <==> Mitigating(m)
    ensures o.valve == o.fan
    ensures o.alarm <==> Alarmed(m)
    ensures o.alert == o.alarm && o.visual == o.alarm
    ensures o.fan && o.backup <==> m == HazardPowerFail
    ensures o == ALL_OFF <==> m == Standby
  {
    match m
    case Standby           => Actuators(false, false, false, false, false, false)
    case HazardMitigation  => Actuators(true,  false, true,  true,  true,  true)
    case FaultMitigation   => Actuators(true,  false, true,  true,  true,  true)
    case WaitingForReset   => Actuators(false, false, false, true,  true,  true)
    case FailsafePowerFail => Actuators(false, true,  false, false, false, false)
    case HazardPowerFail   => Actuators(true,  true,  true,  true,  true,  true)
  }

  /** Hazard mitigation and fault mitigation drive the actuators identically. */
  lemma MitigationModesShareOutputs()
    ensures OutputsFor(HazardMitigation) == OutputsFor(FaultMitigation)
  {
  }

  // ---------------------------------------------------------------------------
  // Single-cycle safety properties

  /** Loss of mains preempts every other input outside the power-fail modes. */
  lemma PowerFailPrecedence(m: Mode, s: Sensors)
    requires PowerFail(s)
    ensures m == Standby || m == WaitingForReset ==> NextMode(m, s) == FailsafePowerFail
    ensures m == HazardMitigation || m == FaultMitigation ==> NextMode(m, s) == HazardPowerFail
  {
  }

  /** In a power-fail mode only the power input matters: restoration leaves
      for Standby or HazardMitigation, otherwise the mode is held. */
  lemma PowerFailLatch(m: Mode, s: Sensors, s': Sensors)
    requires PowerFailMode(m)
    requires s.powerOk == s'.powerOk
    ensures NextMode(m, s) == NextMode(m, s')
    ensures NextMode(m, s) ==
              if PowerFail(s) then m
              else if m == FailsafePowerFail then Standby
              else HazardMitigation
  {
  }

  /** A failing fan or vent is never masked by a momentarily safe reading. */
  lemma NoFaultMasking(s: Sensors)
    requires !PowerFail(s) && MitigationFault(s)
    ensures NextMode(HazardMitigation, s) == FaultMitigation
  {
  }

  /** While waiting for reset with mains present, an authorised reset is
      honoured before a recurring hazard is considered. */
  lemma ResetOrder(s: Sensors)
    requires !PowerFail(s)
    ensures s.resetAuthorized ==> NextMode(WaitingForReset, s) == Standby
    ensures !s.resetAuthorized && Hazard(s) ==> NextMode(WaitingForReset, s) == HazardMitigation
    ensures !s.resetAuthorized && !Hazard(s) ==> NextMode(WaitingForReset, s) == WaitingForReset
  {
  }

  /** From Standby with mains present, a hazard starts mitigation; without
      one the machine stays in Standby. */
  lemma HazardDetected(s: Sensors)
    requires !PowerFail(s)
    ensures NextMode(Standby, s) == if Hazard(s) then HazardMitigation else Standby
  {
  }

  /** While mitigating with mains present and no new fault to report, safe
      readings move on to wait for a reset; unsafe readings keep the mode. */
  lemma ClearanceAwaitsReset(m: Mode, s: Sensors)
    requires m == HazardMitigation || m == FaultMitigation
    requires !PowerFail(s)
    requires m == HazardMitigation ==> !MitigationFault(s)
    ensures NextMode(m, s) == if Safe(s) then WaitingForReset else m
  {
  }

  /** Leaving WaitingForReset for Standby without an authorised reset is
      possible through a power interruption: the mains drop sends it to
      FailsafePowerFail, whose only exit is Standby. */
  lemma PowerBlipClearsWaitingForReset(off: Sensors, on: Sensors)
    requires PowerFail(off) && !PowerFail(on)
    ensures NextMode(NextMode(WaitingForReset, off), on) == Standby
  {
  }

  // ---------------------------------------------------------------------------
  // Runs of successive cycles, as a caller polling once per cycle drives them

  /** The mode after feeding `trace` to the machine one cycle at a time from `m`. */
  function Run(m: Mode, trace: seq<Sensors>): Mode
    decreases |trace|
  {
    if |trace| == 0 then m else Run(NextMode(m, trace[0]), trace[1..])
  }

  /** A run is one transition per cycle, in order: the mode after a non-empty
      trace is the transition, under its last input, of the mode reached by
      all the earlier inputs. */
  lemma {:induction false} RunLastStep(m: Mode, trace: seq<Sensors>)
    requires |trace| > 0
    ensures Run(m, trace) == NextMode(Run(m, trace[..|trace| - 1]), trace[|trace| - 1])
    decreases |trace|
  {
    if |trace| > 1 {
      RunLastStep(NextMode(m, trace[0]), trace[1..]);
      assert trace[..|trace| - 1][1..] == trace[1..][..|trace| - 2];
    }
  }

  /** The mode observed after each cycle of `trace`, starting from `m`. */
  function Modes(m: Mode, trace: seq<Sensors>): (ms: seq<Mode>)
    ensures |ms| == |trace|
    ensures forall i :: 0 <= i < |trace| ==> ms[i] == Run(m, trace[..i + 1])
    decreases |trace|
  {
    if |trace| == 0 then []
    else
      var m1 := NextMode(m, trace[0]);
      var rest := Modes(m1, trace[1..]);
      assert forall i :: 0 < i < |trace| ==> trace[..i + 1][1..] == trace[1..][..i];
      [m1] + rest
  }

  /** Once the mains are off, the mode reached in the first cycle is held
      for as long as they stay off, and it is a power-fail mode. */
  lemma {:induction false} PowerOffRunLatches(m: Mode, trace: seq<Sensors>)
    requires |trace| > 0
    requires forall i :: 0 <= i < |trace| ==> PowerFail(trace[i])
    ensures Run(m, trace) == NextMode(m, trace[0])
    ensures PowerFailMode(Run(m, trace))
    decreases |trace|
  {
    var m1 := NextMode(m, trace[0]);
    if |trace| > 1 {
      PowerOffRunLatches(m1, trace[1..]);
      PowerFailLatch(m1, trace[1], trace[1]);
    }
  }

  /** While the hazard persists, mitigation once started is never dropped:
      fan and valve stay engaged, on backup power if the mains fail. */
  lemma {:induction false} PersistentHazardKeepsMitigating(m: Mode, trace: seq<Sensors>)
    requires Mitigating(m)
    requires forall i :: 0 <= i < |trace| ==> Hazard(trace[i])
    ensures Mitigating(Run(m, trace))
    ensures OutputsFor(Run(m, trace)).fan && OutputsFor(Run(m, trace)).valve
    decreases |trace|
  {
    if |trace| > 0 {
      PersistentHazardKeepsMitigating(NextMode(m, trace[0]), trace[1..]);
    }
  }

  /** From any mode, a hazard present for two cycles with mains power engages
      fan and valve, and they stay engaged while the hazard lasts. */
  lemma {:induction false} PersistentHazardEngagesMitigation(m: Mode, trace: seq<Sensors>)
    requires |trace| >= 2
    requires !PowerFail(trace[0]) && !PowerFail(trace[1])
    requires forall i :: 0 <= i < |trace| ==> Hazard(trace[i])
    ensures Mitigating(Run(m, trace))
    ensures OutputsFor(Run(m, trace)).fan && OutputsFor(Run(m, trace)).valve
  {
    var m1 := NextMode(m, trace[0]);
    var m2 := NextMode(m1, trace[1]);
    assert Mitigating(m2);
    assert trace[1..][1..] == trace[2..];
    assert Run(m, trace) == Run(m2, trace[2..]);
    PersistentHazardKeepsMitigating(m2, trace[2..]);
  }

  /** With mains present and no reset authorised, a machine that has raised
      the alarm never returns to Standby and keeps the alarm on. */
  lemma {:induction false} AlarmHeldUntilReset(m: Mode, trace: seq<Sensors>)
    requires Alarmed(m)
    requires forall i :: 0 <= i < |trace| ==> !PowerFail(trace[i]) && !trace[i].resetAuthorized
    ensures Alarmed(Run(m, trace)) && Run(m, trace) != Standby
    ensures OutputsFor(Run(m, trace)).alarm
    decreases |trace|
  {
    if |trace| > 0 {
      AlarmHeldUntilReset(NextMode(m, trace[0]), trace[1..]);
    }
  }

  // ---------------------------------------------------------------------------
  // The controller object

  /** The controller as the caller sees it: the current mode and the six
      actuator flags, all updated in place once per cycle. */
  class GasSafetyFsm {
    var mode: Mode
    var fan: bool
    var backup: bool
    var valve: bool
    var alarm: bool
    var alert: bool
    var visual: bool

    /** The six actuator flags as one value. */
    function Outputs(): Actuators
      reads this
    {
      Actuators(fan, backup, valve, alarm, alert, visual)
    }

    /** The outputs are always those the current mode dictates. */
    ghost predicate Valid()
      reads this
    {
      Outputs() == OutputsFor(mode)
    }

    /** A new controller is in Standby with every actuator off. */
    constructor ()
      ensures Valid()
      ensures mode == Standby && Outputs() == ALL_OFF
    {
      mode := Standby;
      new;
      SetOutputs();
    }

    /** Advances one cycle: derives the four conditions, applies the current
        mode's transition rule, then recomputes the outputs from the new mode. */
    method Update(g: bool, t: bool, p: bool, c: bool, f: bool, r: bool)
      modifies this
      ensures mode == NextMode(old(mode), Sensors(g, t, p, c, f, r))
      ensures Valid()
    {
      var isHazard := !g || !t;
      var isSafe := g && t;
      var isPowerFail := !p;
      var isMitigationFault := !c || !f;
      var isResetAuth := r;

      var next := mode;
      match mode {
        case Standby =>
          if isPowerFail { next := FailsafePowerFail; }
          else if isHazard { next := HazardMitigation; }
        case HazardMitigation =>
          if isPowerFail { next := HazardPowerFail; }
          else if isMitigationFault { next := FaultMitigation; }
          else if isSafe { next := WaitingForReset; }
        case FaultMitigation =>
          if isPowerFail { next := HazardPowerFail; }
          else if isSafe { next := WaitingForReset; }
        case WaitingForReset =>
          if isPowerFail { next := FailsafePowerFail; }
          else if isResetAuth { next := Standby; }
          else if isHazard { next := HazardMitigation; }
        case FailsafePowerFail =>
          if !isPowerFail { next := Standby; }
        case HazardPowerFail =>
          if !isPowerFail { next := HazardMitigation; }
      }

      mode := next;
      SetOutputs();
    }

    /** Drives all six actuators from the current mode alone. */
    method SetOutputs()
      modifies this`fan, this`backup, this`valve, this`alarm, this`alert, this`visual
      ensures Valid()
    {
      match mode {
        case Standby =>
          fan, backup, valve := false, false, false;
          alarm, alert, visual := false, false, false;
        case HazardMitigation =>
          fan, backup, valve := true, false, true;
          alarm, alert, visual := true, true, true;
        case FaultMitigation =>
          fan, backup, valve := true, false, true;
          alarm, alert, visual := true, true, true;
        case WaitingForReset =>
          fan, backup, valve := false, false, false;
          alarm, alert, visual := true, true, true;
        case FailsafePowerFail =>
          fan, backup, valve := false, true, false;
          alarm, alert, visual := false, false, false;
        case HazardPowerFail =>
          fan, backup, valve := true, true, true;
          alarm, alert, visual := true, true, true;
      }
    }
  }
}
