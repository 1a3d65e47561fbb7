# Fail-safe hazardous-gas mitigation controller, in Dafny

This project models the controller `GasSafetyFsm` of the fail-safe hazardous-gas
mitigation system. Each control cycle the controller reads six signals: gas ok (G),
temperature ok (T), mains power ok (P), fan current ok (C), vent flow ok (F) and
reset authorised (R). From these it derives four conditions: hazard, safe, power
fail and mitigation fault. It then moves between six modes, Standby (S0) to
HazardPowerFail (S5), following a priority-ordered rule for each mode. Finally it
sets six actuators (fan, backup power, shutoff valve, alarm, alert, visual
indicator) from the new mode alone.

Layout:

- `gas_safety.dfy`, module `GasSafety`, holds three things.
  - The pure core: the `Mode`, `Sensors` and `Actuators` datatypes, the derived
    conditions, the transition function `NextMode` and the output table
    `OutputsFor`.
  - The safety lemmas about single cycles, and about runs of cycles (`Run`, `Modes`).
  - The class `GasSafetyFsm`. Its `Update` and `SetOutputs` update the mode and the
    six flags in place, as the source does. Their postconditions tie the new state
    to `NextMode` and `OutputsFor`.
- `scenario.dfy`, module `Scenario`, holds the seven-cycle demonstration run. It is
  stated twice: as a trace lemma over the pure functions, and as a client method
  that drives the class.

In WaitingForReset the code (Program.cs:69-71) tests reset authorisation before
hazard, so R=true returns to Standby even while a hazard is present; `ResetOrder`
states this order. Hazard and safe are kept as two independent definitions, as the
code computes them, and `SafeIsNotHazard` proves they are complements.

## Model

| member | source | states |
|---|---|---|
| GasSafety.Hazard | Program.cs:42 | hazard: gas or temperature reads unsafe |
| GasSafety.Safe | Program.cs:43 | safe: gas and temperature both read nominal |
| GasSafety.PowerFail | Program.cs:44 | power fail: mains power is not ok |
| GasSafety.MitigationFault | Program.cs:45 | mitigation fault: fan current or vent flow is not ok |
| GasSafety.SafeIsNotHazard | Program.cs:42-43 | the independently computed safe and hazard conditions are exact complements |
| GasSafety.NextMode | Program.cs:48-83 | from every mode, the next mode is a power-fail mode exactly when mains power is lost; it is HazardPowerFail exactly when power is lost during mitigation (S1, S2, S5) and FailsafePowerFail exactly when power is lost otherwise (S0, S3, S4) |
| GasSafety.OutputsFor | Program.cs:87-117 | backup power is on exactly in the two power-fail modes; fan and valve are engaged exactly in the mitigating modes and always agree; alarm, alert and visual agree and are on exactly in S1, S2, S3 and S5; only S5 has both fan and backup on; all six are off exactly in Standby |
| GasSafety.MitigationModesShareOutputs | Program.cs:96-100 | HazardMitigation and FaultMitigation drive identical outputs |
| GasSafety.PowerFailPrecedence | Program.cs:52-72 | with power lost, Standby and WaitingForReset go to FailsafePowerFail, and HazardMitigation and FaultMitigation go to HazardPowerFail, whatever the other inputs |
| GasSafety.PowerFailLatch | Program.cs:74-80 | in either power-fail mode the next mode depends on P alone: restored power leads to Standby from S4 and to HazardMitigation from S5, otherwise the mode is held |
| GasSafety.NoFaultMasking | Program.cs:57-60 | from HazardMitigation with power present, a fan-current or vent-flow fault leads to FaultMitigation even when gas and temperature read safe |
| GasSafety.ResetOrder | Program.cs:68-72 | from WaitingForReset with power present: R leads to Standby even during a hazard; without R, a hazard leads to HazardMitigation; without R and without a hazard, the mode stays |
| GasSafety.PowerBlipClearsWaitingForReset | Program.cs:68-76 | a power loss followed by its recovery takes WaitingForReset to Standby with no reset authorisation |
| GasSafety.HazardDetected | Program.cs:52-55 | from Standby with power present, a hazard leads to HazardMitigation and its absence keeps Standby |
| GasSafety.ClearanceAwaitsReset | Program.cs:57-66 | from HazardMitigation without a fault, or from FaultMitigation, with power present, safe readings lead to WaitingForReset and unsafe readings keep the mode |
| GasSafety.Run | Program.cs:143-175 | the mode after the caller's successive updates, one transition per input, first to last |
| GasSafety.RunLastStep | Program.cs:143-175 | after a non-empty trace the mode is the transition, under the last input, of the mode reached by all earlier inputs, as each new update acts on the state the previous one left |
| GasSafety.Modes | Program.cs:39-85 | the i-th mode observed is the mode after the first i+1 cycles, one per input of the trace |
| GasSafety.PowerOffRunLatches | Program.cs:50-80 | over any run with power lost throughout, the mode entered on the first cycle is a power-fail mode and is held to the end |
| GasSafety.PersistentHazardKeepsMitigating | Program.cs:57-80 | once mitigating, while the hazard persists the machine stays in S1, S2 or S5, whatever the power, so fan and valve stay engaged |
| GasSafety.PersistentHazardEngagesMitigation | Program.cs:50-81 | from any mode, a hazard lasting two or more cycles, with power present in the first two, leaves fan and valve engaged at the end |
| GasSafety.AlarmHeldUntilReset | Program.cs:57-72 | with power present and no reset authorised, a machine whose alarm is on never returns to Standby and keeps the alarm on |
| GasSafety.GasSafetyFsm.constructor | Program.cs:33-37 | a new controller is in Standby with all six outputs off, and its outputs agree with its mode |
| GasSafety.GasSafetyFsm.Update | Program.cs:39-85 | the new mode is the transition of the old mode under the six inputs, and the six flags afterwards are the output table's row for the new mode, whatever the inputs |
| GasSafety.GasSafetyFsm.SetOutputs | Program.cs:87-117 | the six flags become the output table's row for the current mode; only the flags change |
| Scenario.DemoTrace | Program.cs:143-175 | the demonstration's inputs take Standby through S0, S1, S2, S5, S1, S3 and back to S0, ending with every output off |
| Scenario.DemoScenario | Program.cs:128-175 | driving the controller object with the demonstration's inputs gives each cycle's reported mode and outputs and ends in Standby with every output off |

## Left out

- The console printing, colours and status lambda of the demonstration driver (Program.cs:133-141): presentation only. The driver's input sequence is kept, in `Scenario`.
- `ReadSensor` (Program.cs:123-126): an identity stub with no behaviour. The demonstration passes its argument straight through.
- The private setters of the C# properties (Program.cs:23-31): the class fields are public and both readable and writable, so a client could assign them between updates and break `Valid()`; in the source only the class itself can assign them.
- quantum_simulation.py is not part of this model. It samples measurement counts from a quantum-circuit simulator, an external library. The NAND of gas and temperature that it encodes is the hazard condition, `Hazard`.
- Concurrency and timing: the controller is single-threaded. The polling cadence belongs to the caller.
