/**
 * The irrigation motor panel: a soil-moisture rule that advises starting or stopping the
 * pump, and the on/off state that a toggle changes after a one-second delay.
 */
module Motor {
  import opened Wrappers

  datatype MotorAction = On | Off

  datatype MotorRecommendation = MotorRecommendation(action: string, message: string)

  /**
   * `sensorData?.soilMoisture || 15`: a missing reading and a reading of 0 (both falsy)
   * fall back to 15.
   */
  function EffectiveMoisture(reading: Option<real>): (m: real)
    ensures reading.Some? && reading.value != 0.0 ==> m == reading.value
    ensures reading.None? || reading.value == 0.0 ==> m == 15.0
  {
    match reading
    case Some(v) => if v != 0.0 then v else 15.0
    case None => 15.0
  }

  /** `getMotorRecommendation`: dry soil starts irrigation, wet soil stops it, else hold. */
  function Recommendation(soilMoisture: real): (r: MotorRecommendation)
    ensures r.action in {"on", "off", "hold"}
    ensures r.action == "on" <==> soilMoisture < 40.0
    ensures r.action == "off" <==> soilMoisture > 80.0
    ensures r.action == "hold" <==> 40.0 <= soilMoisture <= 80.0
    ensures r.action == "on" ==> r.message == "Soil is dry. Start irrigation."
    ensures r.action == "off" ==> r.message == "Soil is wet enough. Stop irrigation."
    ensures r.action == "hold" ==> r.message == "Soil moisture is optimal."
  {
    if soilMoisture < 40.0 then MotorRecommendation("on", "Soil is dry. Start irrigation.")
    else if soilMoisture > 80.0 then MotorRecommendation("off", "Soil is wet enough. Stop irrigation.")
    else MotorRecommendation("hold", "Soil moisture is optimal.")
  }

  /** A missing reading, or a reading of exactly 0, is treated as dry soil. */
  lemma FalsyReadingRecommendsOn(reading: Option<real>)
    requires reading.None? || reading.value == 0.0
    ensures Recommendation(EffectiveMoisture(reading)).action == "on"
  {
  }

  /** The Start button's `disabled` condition. */
  function StartDisabled(isLoading: bool, status: MotorAction): bool {
    isLoading || status == On
  }

  /** The Stop button's `disabled` condition. */
  function StopDisabled(isLoading: bool, status: MotorAction): bool {
    isLoading || status == Off
  }

  /**
   * While no toggle is pending exactly one of the two buttons is enabled, and it is the one
   * that asks for the other state; during a toggle both are disabled.
   */
  lemma ButtonsOfferTheOtherState(isLoading: bool, status: MotorAction)
    ensures isLoading ==> StartDisabled(isLoading, status) && StopDisabled(isLoading, status)
    ensures !isLoading ==> StartDisabled(isLoading, status) != StopDisabled(isLoading, status)
    ensures !isLoading && !StartDisabled(isLoading, status) ==> status == Off
    ensures !isLoading && !StopDisabled(isLoading, status) ==> status == On
  {
  }

  /**
   * The motor panel's state. `pending` holds the actions of the toggles whose one-second
   * timers have not fired yet, oldest first.
   */
  class MotorControl {
    var motorStatus: MotorAction
    var isLoading: bool
    var pending: seq<MotorAction>

    constructor ()
      ensures motorStatus == Off && !isLoading && pending == []
    {
      motorStatus := Off;
      isLoading := false;
      pending := [];
    }

    /** `handleMotorToggle(action)`: mark the panel busy and schedule the change. */
    method HandleMotorToggle(action: MotorAction)
      modifies this
      ensures isLoading && pending == old(pending) + [action]
      ensures motorStatus == old(motorStatus)
    {
      isLoading := true;
      pending := pending + [action];
    }

    /** The oldest scheduled timer fires: the status becomes its action and the panel is idle again. */
    method TimerFires()
      requires pending != []
      modifies this
      ensures motorStatus == old(pending)[0] && !isLoading
      ensures pending == old(pending)[1..]
    {
      motorStatus := pending[0];
      isLoading := false;
      pending := pending[1..];
    }

    function StartButtonDisabled(): bool
      reads this
    {
      StartDisabled(isLoading, motorStatus)
    }

    function StopButtonDisabled(): bool
      reads this
    {
      StopDisabled(isLoading, motorStatus)
    }
  }

  /** A press on the enabled Start button, once its timer fires, leaves the motor running and idle. */
  method StartThenComplete(m: MotorControl)
    requires m.pending == [] && !m.StartButtonDisabled()
    modifies m
    ensures m.motorStatus == On && !m.isLoading && m.pending == []
    ensures !m.StopButtonDisabled() && m.StartButtonDisabled()
  {
    m.HandleMotorToggle(On);
    assert m.StartButtonDisabled() && m.StopButtonDisabled();
    m.TimerFires();
  }

  /**
   * The voice buttons are never disabled: two quick commands schedule two changes, and when the
   * first timer fires the panel reports idle although the second change is still to come.
   */
  method VoiceCommandsOverlap(m: MotorControl)
    requires m.pending == []
    modifies m
    ensures m.motorStatus == On && !m.isLoading && m.pending == [Off]
  {
    m.HandleMotorToggle(On);
    m.HandleMotorToggle(Off);
    m.TimerFires();
  }
}
