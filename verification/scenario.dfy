/** The demonstration run of the controller: seven cycles from Standby through
    a gas leak, a fan fault, a mains failure and its recovery, the leak
    clearing, and an operator reset. */
module Scenario {
  import opened GasSafety

  /** The inputs of the seven cycles (G, T, P, C, F, R). */
  const DEMO_INPUTS: seq<Sensors> := [
    Sensors(true,  true, true,  true,  true, false), // normal operation
    Sensors(false, true, true,  true,  true, false), // gas leak
    Sensors(false, true, true,  false, true, false), // fan current fails
    Sensors(false, true, false, false, true, false), // mains lost
    Sensors(false, true, true,  false, true, false), // mains restored
    Sensors(true,  true, true,  true,  true, false), // leak cleared, fan repaired
    Sensors(true,  true, true,  true,  true, true)   // reset authorised
  ]

  /** The modes the demonstration passes through, and the actuators it ends with. */
  lemma DemoTrace()
    ensures Modes(Standby, DEMO_INPUTS) ==
              [Standby, HazardMitigation, FaultMitigation, HazardPowerFail,
               HazardMitigation, WaitingForReset, Standby]
    ensures OutputsFor(Run(Standby, DEMO_INPUTS)) == ALL_OFF
  {
  }

  /** The same run driven through the controller object: each cycle's mode
      and outputs are those the demonstration reports. */
  method DemoScenario() returns (final: Mode, outputs: Actuators)
    ensures final == Standby && outputs == ALL_OFF
  {
    var fsm := new GasSafetyFsm();

    fsm.Update(true, true, true, true, true, false);
    assert fsm.mode == Standby && fsm.Outputs() == ALL_OFF;

    fsm.Update(false, true, true, true, true, false);
    assert fsm.mode == HazardMitigation;
    assert fsm.Outputs() == Actuators(true, false, true, true, true, true);

    fsm.Update(false, true, true, false, true, false);
    assert fsm.mode == FaultMitigation;
    assert fsm.Outputs() == Actuators(true, false, true, true, true, true);

    fsm.Update(false, true, false, false, true, false);
    assert fsm.mode == HazardPowerFail;
    assert fsm.Outputs() == Actuators(true, true, true, true, true, true);

    fsm.Update(false, true, true, false, true, false);
    assert fsm.mode == HazardMitigation;
    assert fsm.Outputs() == Actuators(true, false, true, true, true, true);

    fsm.Update(true, true, true, true, true, false);
    assert fsm.mode == WaitingForReset;
    assert fsm.Outputs() == Actuators(false, false, false, true, true, true);

    fsm.Update(true, true, true, true, true, true);
    final, outputs := fsm.mode, fsm.Outputs();
  }
}
