/**
 * The dashboard page's colour classes (`getVoltageClass`, `getTempClass` in the
 * page script of camera_web/app.py). The page receives volts (raw / 10); here
 * the voltage is in raw tenths, so 6.0 V and 6.5 V are 60 and 65.
 */
module Dashboard {
  import opened Telemetry

  datatype Level = Good | Warning | Danger

  function Severity(c: Level): nat
  {
    match c
    case Good => 0
    case Warning => 1
    case Danger => 2
  }

  /** `getVoltageClass`: danger below 6.0 V, warning below 6.5 V, good otherwise. */
  function VoltageClass(tenths: int): (c: Level)
    ensures c == Danger <==> tenths < 60
    ensures c == Warning <==> 60 <= tenths < 65
    ensures c == Good <==> 65 <= tenths
  {
    if tenths < 60 then Danger
    else if tenths < 65 then Warning
    else Good
  }

  /** `getTempClass`: danger above 60 C, warning above 45 C, good otherwise. */
  function TempClass(celsius: int): (c: Level)
    ensures c == Danger <==> celsius > 60
    ensures c == Warning <==> 45 < celsius <= 60
    ensures c == Good <==> celsius <= 45
  {
    if celsius > 60 then Danger
    else if celsius > 45 then Warning
    else Good
  }

  /**
   * The summary row agrees with the motor cards: the class shown for min_voltage
   * (max_temp) is the class of some motor card and at least as severe as every card.
   */
  lemma SummaryShowsWorstCard(s: Snapshot)
    requires Summarised(s)
    ensures exists n :: n in s.motors && VoltageClass(s.motors[n].voltage) == VoltageClass(s.minVoltage)
    ensures forall n :: n in s.motors ==> Severity(VoltageClass(s.motors[n].voltage)) <= Severity(VoltageClass(s.minVoltage))
    ensures exists n :: n in s.motors && TempClass(s.motors[n].temp) == TempClass(s.maxTemp)
    ensures forall n :: n in s.motors ==> Severity(TempClass(s.motors[n].temp)) <= Severity(TempClass(s.maxTemp))
  {
    var nv :| nv in s.motors && s.minVoltage == s.motors[nv].voltage;
    var nt :| nt in s.motors && s.maxTemp == s.motors[nt].temp;
    assert VoltageClass(s.motors[nv].voltage) == VoltageClass(s.minVoltage);
    assert TempClass(s.motors[nt].temp) == TempClass(s.maxTemp);
  }
}
