/**
 The battery range evaluator.

 Three readings (temperature, state of charge, charge rate) are checked
 against fixed limits. The range predicates emit an out-of-range
 notification when they fail; the warning monitors emit a discharge or peak
 warning when their near-limit check fires. Readings are modelled as `real`.

 The near-limit checks compare a tolerance-adjusted reading with the same
 reading, so they reduce to a test of the limit's sign. With the configured
 limits, all of them non-negative, every monitor fires, the warning range
 always holds and the battery is never reported as ok for any real
 reading. The model keeps that behaviour as written.
 */
module Checker {
  import opened Evaluation

  const TemperatureUpperLimit: real := 45.0
  const TemperatureLowerLimit: real := 0.0
  const SocUpperLimit: real := 80.0
  const SocLowerLimit: real := 20.0
  /** Named a lower limit, but used as the upper bound of the charge rate. */
  const ChargeRateLowerLimit: real := 0.8
  /** The warning margin: 5% of a limit. */
  const ToleranceFactor: real := 0.05

  /** Valid temperatures form the closed interval [0, 45]. */
  function IsTemperatureInValidRange(temperature: real): (r: Eval)
    ensures r.ok <==> 0.0 <= temperature <= 45.0
    ensures r.trace == if r.ok then [] else [TempOutOfRange]
  {
    if temperature < TemperatureLowerLimit || temperature > TemperatureUpperLimit then
      Eval(false, [TempOutOfRange])
    else
      Quiet(true)
  }

  /** Valid states of charge form the closed interval [20, 80]. */
  function IsStateOfChargeInValidRange(stateOfCharge: real): (r: Eval)
    ensures r.ok <==> 20.0 <= stateOfCharge <= 80.0
    ensures r.trace == if r.ok then [] else [SocOutOfRange]
  {
    if stateOfCharge < SocLowerLimit || stateOfCharge > SocUpperLimit then
      Eval(false, [SocOutOfRange])
    else
      Quiet(true)
  }

  /** A charge rate is valid when it does not exceed 0.8; there is no lower
      bound, so zero and negative rates are valid. */
  function IsChargeRateInValidRange(chargeRate: real): (r: Eval)
    ensures r.ok <==> chargeRate <= 0.8
    ensures r.trace == if r.ok then [] else [ChargeOutOfRange]
  {
    if chargeRate > ChargeRateLowerLimit then
      Eval(false, [ChargeOutOfRange])
    else
      Quiet(true)
  }

  /** `isTemperatureInValidRange && isStateOfChargeInValidRange &&
      isChargeRateInValidRange`: the battery is in range exactly when all
      three readings are, and only the first failing predicate emits, so at
      most one out-of-range notification appears. */
  function IsBatteryInValidRange(temperature: real, stateOfCharge: real, chargeRate: real): (r: Eval)
    ensures r.ok <==> 0.0 <= temperature <= 45.0 && 20.0 <= stateOfCharge <= 80.0 && chargeRate <= 0.8
    ensures r.trace ==
      if !(0.0 <= temperature <= 45.0) then [TempOutOfRange]
      else if !(20.0 <= stateOfCharge <= 80.0) then [SocOutOfRange]
      else if !(chargeRate <= 0.8) then [ChargeOutOfRange]
      else []
    ensures |r.trace| <= 1
  {
    var operands := ValidRangeOperands(temperature, stateOfCharge, chargeRate);
    AllOfThree(operands[0], operands[1], operands[2]);
    All(operands)
  }

  /** The operands of the validity chain, in evaluation order. */
  function ValidRangeOperands(temperature: real, stateOfCharge: real, chargeRate: real): seq<Eval> {
    [ IsTemperatureInValidRange(temperature),
      IsStateOfChargeInValidRange(stateOfCharge),
      IsChargeRateInValidRange(chargeRate) ]
  }

  /** The reading moved down by 5% of an upper limit (the shift is one
      twentieth of the limit); it lies at or below the reading exactly when
      the limit is non-negative. */
  function UpperToleranceValue(upperLimit: real, value: real): (r: real)
    ensures 20.0 * (value - r) == upperLimit
    ensures r <= value <==> upperLimit >= 0.0
    ensures r == value <==> upperLimit == 0.0
  {
    value - ToleranceFactor * upperLimit
  }

  /** The reading moved up by 5% of a lower limit (the shift is one twentieth
      of the limit); it lies at or above the reading exactly when the limit
      is non-negative. */
  function LowerToleranceValue(lowerLimit: real, value: real): (r: real)
    ensures 20.0 * (r - value) == lowerLimit
    ensures r >= value <==> lowerLimit >= 0.0
    ensures r == value <==> lowerLimit == 0.0
  {
    value + ToleranceFactor * lowerLimit
  }

  /** Fires (and emits `notice`) when the lower tolerance value is at least
      the reading: whatever the reading, that is when the limit is
      non-negative. */
  function IsLowerLimitInWarningRange(value: real, lowerLimit: real, notice: Msg): (r: Eval)
    ensures r.ok <==> lowerLimit >= 0.0
    ensures r.trace == if r.ok then [notice] else []
  {
    if LowerToleranceValue(lowerLimit, value) >= value then Eval(true, [notice]) else Quiet(false)
  }

  /** Fires (and emits `notice`) when the upper tolerance value is at most
      the reading: whatever the reading, that is when the limit is
      non-negative. */
  function IsUpperLimitInWarningRange(value: real, upperLimit: real, notice: Msg): (r: Eval)
    ensures r.ok <==> upperLimit >= 0.0
    ensures r.trace == if r.ok then [notice] else []
  {
    if UpperToleranceValue(upperLimit, value) <= value then Eval(true, [notice]) else Quiet(false)
  }

  /** Lower check against 20 with a discharge warning, or else upper check
      against 80 with a peak warning. The lower check always fires, so the
      monitor always holds and the peak warning is never emitted. */
  function MonitorSocWarningRange(stateOfCharge: real): (r: Eval)
    ensures r.ok
    ensures r.trace == [WarningDischarge]
  {
    Or(IsLowerLimitInWarningRange(stateOfCharge, SocLowerLimit, WarningDischarge),
       IsUpperLimitInWarningRange(stateOfCharge, SocUpperLimit, WarningPeak))
  }

  /** Lower check against 0.8 with a discharge warning; it always fires. */
  function MonitorChargeRateWarningRange(chargeRate: real): (r: Eval)
    ensures r.ok
    ensures r.trace == [WarningDischarge]
  {
    IsLowerLimitInWarningRange(chargeRate, ChargeRateLowerLimit, WarningDischarge)
  }

  /** Lower check against 0 with a discharge warning, or else upper check
      against 45 with a peak warning. The lower check always fires. */
  function MonitorTemperatureWarningRange(temperature: real): (r: Eval)
    ensures r.ok
    ensures r.trace == [WarningDischarge]
  {
    Or(IsLowerLimitInWarningRange(temperature, TemperatureLowerLimit, WarningDischarge),
       IsUpperLimitInWarningRange(temperature, TemperatureUpperLimit, WarningPeak))
  }

  /** `monitorChargeRateWarningRange && monitorSOCWarningRange &&
      monitorTemperatureWarningRange`: every monitor fires, so the chain holds
      and emits one discharge warning per reading. (The operands run charge
      rate first; the three messages are alike, so the order is not visible
      in the trace.) */
  function IsBatteryInWarningRange(temperature: real, stateOfCharge: real, chargeRate: real): (r: Eval)
    ensures r.ok
    ensures r.trace == [WarningDischarge, WarningDischarge, WarningDischarge]
  {
    var operands := WarningRangeOperands(temperature, stateOfCharge, chargeRate);
    AllOfThree(operands[0], operands[1], operands[2]);
    All(operands)
  }

  /** The operands of the warning chain, in evaluation order. */
  function WarningRangeOperands(temperature: real, stateOfCharge: real, chargeRate: real): seq<Eval> {
    [ MonitorChargeRateWarningRange(chargeRate),
      MonitorSocWarningRange(stateOfCharge),
      MonitorTemperatureWarningRange(temperature) ]
  }

  /** `!isBatteryInWarningRange && isBatteryInValidRange`. The warning range
      always holds, so the battery is never ok, the validity predicates are
      never evaluated, and only the three discharge warnings are emitted. */
  function BatteryIsOk(temperature: real, stateOfCharge: real, chargeRate: real): (r: Eval)
    ensures !r.ok
    ensures r.trace == [WarningDischarge, WarningDischarge, WarningDischarge]
  {
    And(Not(IsBatteryInWarningRange(temperature, stateOfCharge, chargeRate)),
        IsBatteryInValidRange(temperature, stateOfCharge, chargeRate))
  }

  /** Evaluating both operands of the decision (the non-short-circuit form)
      gives the same answer; what the short-circuit skips is exactly the
      validity chain's out-of-range notification, if any. */
  lemma BatteryIsOkSkipsValidity(temperature: real, stateOfCharge: real, chargeRate: real)
    ensures
      var valid := IsBatteryInValidRange(temperature, stateOfCharge, chargeRate);
      var eager := AllEager([Not(IsBatteryInWarningRange(temperature, stateOfCharge, chargeRate)), valid]);
      && eager.ok == BatteryIsOk(temperature, stateOfCharge, chargeRate).ok
      && eager.trace == BatteryIsOk(temperature, stateOfCharge, chargeRate).trace + valid.trace
  {
    var warning := Not(IsBatteryInWarningRange(temperature, stateOfCharge, chargeRate));
    var valid := IsBatteryInValidRange(temperature, stateOfCharge, chargeRate);
    TracesAppend([warning], [valid]);
    assert [warning] + [valid] == [warning, valid];
    assert [warning][1..] == [] && [valid][1..] == [];
  }

  /** The assertions the program's entry point makes, all of which hold. */
  lemma EntryPointAssertions()
    ensures !BatteryIsOk(0.0, 19.0, 1.0).ok
    ensures !BatteryIsOk(1.0, 21.0, 1.0).ok
    ensures !BatteryIsOk(1.0, 81.0, 0.7).ok
    ensures !BatteryIsOk(-1.0, 79.0, 0.7).ok
    ensures !BatteryIsOk(1.0, 21.0, 0.7).ok
    ensures !BatteryIsOk(44.0, 79.0, 0.7).ok
    ensures IsTemperatureInValidRange(0.0).ok
    ensures IsTemperatureInValidRange(45.0).ok
    ensures !IsTemperatureInValidRange(-1.0).ok
    ensures !IsTemperatureInValidRange(46.0).ok
    ensures IsTemperatureInValidRange(40.0).ok
    ensures IsStateOfChargeInValidRange(20.0).ok
    ensures IsStateOfChargeInValidRange(80.0).ok
    ensures !IsStateOfChargeInValidRange(19.0).ok
    ensures !IsStateOfChargeInValidRange(81.0).ok
    ensures IsStateOfChargeInValidRange(21.0).ok
    ensures !IsChargeRateInValidRange(0.9).ok
    ensures IsChargeRateInValidRange(0.7).ok
    ensures IsChargeRateInValidRange(0.0).ok
    ensures forall t :: t in [1.0, 2.0, 43.0, 44.0] ==> MonitorTemperatureWarningRange(t).ok
    ensures forall s :: s in [21.0, 22.0, 23.0, 24.0, 77.0, 78.0, 79.0] ==> MonitorSocWarningRange(s).ok
    ensures forall c :: c in [0.79, 0.77, 0.78] ==> MonitorChargeRateWarningRange(c).ok
  {
  }
}
