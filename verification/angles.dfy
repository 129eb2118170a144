/** The clock-hand angles repaintClocks and repaintSymbolicClocks compute from the
    local time, in degrees (the code multiplies each by pi/180 before handing it to
    cairo; that conversion is what Canvas.Step's `cis` stands for). */
module ClockAngles {

  /** Local time as Date.getHours/getMinutes/getSeconds report it. */
  datatype Time = Time(hours: nat, minutes: nat, seconds: nat)

  predicate Valid(t: Time) {
    t.hours < 24 && t.minutes < 60 && t.seconds < 60
  }

  /** `(hours % 12 + minutes / 60) * 30`: the hour hand on a 12-hour dial, creeping
      half a degree per minute. */
  function HourAngle(t: Time): (a: real)
    ensures Valid(t) ==> 0.0 <= a < 360.0
  {
    ((t.hours % 12) as real + t.minutes as real / 60.0) * 30.0
  }

  /** `(minutes + seconds / 60) * 6`: the full-colour minute hand, which creeps with
      the seconds. */
  function MinuteAngle(t: Time): (a: real)
    ensures Valid(t) ==> 0.0 <= a < 360.0
  {
    (t.minutes as real + t.seconds as real / 60.0) * 6.0
  }

  /** `minutes * 6`: the symbolic minute hand ignores the seconds and jumps once a
      minute. */
  function SymbolicMinuteAngle(t: Time): (a: real)
    ensures Valid(t) ==> 0.0 <= a < 360.0
  {
    t.minutes as real * 6.0
  }

  /** `seconds * 6`. */
  function SecondAngle(t: Time): (a: real)
    ensures Valid(t) ==> 0.0 <= a < 360.0
  {
    t.seconds as real * 6.0
  }

  /** The hour hand turns a twelfth as fast as the symbolic minute hand: twelve times
      its angle is the minute angle plus whole turns, one per hour past 12. */
  lemma HourHandGearing(t: Time)
    ensures 12.0 * HourAngle(t) == SymbolicMinuteAngle(t) + 360.0 * (t.hours % 12) as real
  {
  }

  /** The full-colour minute hand is the symbolic one advanced by a sixtieth of the
      second hand. */
  lemma MinuteHandGearing(t: Time)
    ensures MinuteAngle(t) == SymbolicMinuteAngle(t) + SecondAngle(t) / 60.0
  {
  }

  /** The hours are read on a 12-hour dial: a time and the same time twelve hours
      later put the hour hand in the same place. */
  lemma TwelveHourDial(t: Time)
    requires t.hours < 12
    ensures HourAngle(t.(hours := t.hours + 12)) == HourAngle(t)
  {
  }

  /** 3:00:00 puts the hour hand at 90 degrees and the others at 0; 3:15:00 puts the
      hour hand at 97.5 and the minute hand at 90; 15:00 reads as 3:00. */
  lemma Examples()
    ensures HourAngle(Time(3, 0, 0)) == 90.0
    ensures MinuteAngle(Time(3, 0, 0)) == 0.0 && SecondAngle(Time(3, 0, 0)) == 0.0
    ensures HourAngle(Time(3, 15, 0)) == 97.5
    ensures MinuteAngle(Time(3, 15, 0)) == 90.0
    ensures HourAngle(Time(15, 0, 0)) == 90.0
    ensures MinuteAngle(Time(3, 15, 30)) == 93.0 && SymbolicMinuteAngle(Time(3, 15, 30)) == 90.0
  {
  }
}
