/** The wire tokens the controller's command methods put on the outbound
    queue, and the target/flag each command sets locally. Both controller
    classes send through these definitions. */
module Commands {
  import opened Wrappers
  import opened Text
  import opened Records

  /** Every command a `MotorController` method sends. */
  datatype Command =
    | Speed(side: Side, speed: int)   // `set_speed`
    | Both(speed: int)             // `set_both_speeds`
    | Forward | Reverse                  // `set_direction('both', ...)`
    | StopAll                            // `stop_motors`
    | Coast                              // `coast_motors`
    | Emergency                          // `emergency_stop`
    | Clear                     // `clear_emergency`
    | SoftBrake | HardBrake              // `activate_soft_brake` / `activate_hard_brake`

  function SpeedCode(side: Side): string {
    if side == Left then "ML" else "MR"
  }

  /** The text handed to `send_command`. */
  function Wire(c: Command): string {
    match c
    case Speed(side, speed) => SpeedCode(side) + ":" + IntToString(speed)
    case Both(speed) => "BOTH:" + IntToString(speed)
    case Forward => "F"
    case Reverse => "R"
    case StopAll => "S"
    case Coast => "COAST"
    case Emergency => "E"
    case Clear => "C"
    case SoftBrake => "SOFTBRAKE"
    case HardBrake => "HARDBRAKE"
  }

  /** The inverse of `Wire` over the command tokens: the fixed words first,
      then the `ML:`, `MR:` and `BOTH:` prefixes with a decimal integer after
      them. It is not the firmware's parser, which also trims and upper-cases
      the text and accepts only unsigned speeds up to 255. */
  function Decode(s: string): Option<Command> {
    if s == "F" then Some(Forward)
    else if s == "R" then Some(Reverse)
    else if s == "S" then Some(StopAll)
    else if s == "COAST" then Some(Coast)
    else if s == "SOFTBRAKE" then Some(SoftBrake)
    else if s == "HARDBRAKE" then Some(HardBrake)
    else if s == "E" then Some(Emergency)
    else if s == "C" then Some(Clear)
    else if StartsWith(s, "ML:") then
      match ParseInt(s[3..]) case None => None case Some(v) => Some(Speed(Left, v))
    else if StartsWith(s, "MR:") then
      match ParseInt(s[3..]) case None => None case Some(v) => Some(Speed(Right, v))
    else if StartsWith(s, "BOTH:") then
      match ParseInt(s[5..]) case None => None case Some(v) => Some(Both(v))
    else None
  }

  lemma DecodePrefixed(prefix: string, n: int)
    requires |prefix| >= 2 && prefix[|prefix| - 1] == ':'
    ensures var s := prefix + IntToString(n);
      && StartsWith(s, prefix) && s[|prefix|..] == IntToString(n)
      && ParseInt(s[|prefix|..]) == Some(n)
      && |s| > |prefix|
  {
    ParseIntToString(n);
    NoColonInInt(n);
  }

  lemma DecodeSpeed(side: Side, speed: int)
    ensures Decode(Wire(Speed(side, speed))) == Some(Speed(side, speed))
  {
    var s := Wire(Speed(side, speed));
    DecodePrefixed(SpeedCode(side) + ":", speed);
    assert s == (SpeedCode(side) + ":") + IntToString(speed);
    assert s[0] == 'M' && s[2] == ':';
    if side == Left {
      assert StartsWith(s, "ML:");
    } else {
      assert s[1] == 'R' && !StartsWith(s, "ML:");
      assert StartsWith(s, "MR:");
    }
  }

  lemma DecodeBoth(speed: int)
    ensures Decode(Wire(Both(speed))) == Some(Both(speed))
  {
    var s := Wire(Both(speed));
    DecodePrefixed("BOTH:", speed);
    assert s[0] == 'B' && s[1] == 'O';
    assert !StartsWith(s, "ML:") && !StartsWith(s, "MR:");
  }

  /** The queued text names its command unambiguously: reading it back
      gives the command, so no two commands share a wire token. */
  lemma DecodeWire(c: Command)
    ensures Decode(Wire(c)) == Some(c)
  {
    match c
    case Speed(side, speed) => DecodeSpeed(side, speed);
    case Both(speed) => DecodeBoth(speed);
    case _ =>
  }

  lemma WireInjective(c: Command, d: Command)
    requires Wire(c) == Wire(d)
    ensures c == d
  {
    DecodeWire(c);
    DecodeWire(d);
  }

  /** `set_direction(motor, direction)`: only `motor == 'both'` with a
      direction that upper-cases to `FORWARD` or `REVERSE` sends anything. */
  function DirectionCommand(motor: string, direction: string): Option<Command> {
    if motor == "both" then
      if Upper(direction) == "FORWARD" then Some(Forward)
      else if Upper(direction) == "REVERSE" then Some(Reverse)
      else None
    else None
  }

  lemma UpperIdempotent(s: string)
    ensures Upper(Upper(s)) == Upper(s)
  {
  }

  /** The direction argument is compared without regard to case: `forward`,
      `Forward` and `FORWARD` all send `F`. */
  lemma DirectionIgnoresCase(motor: string, direction: string)
    ensures DirectionCommand(motor, direction) == DirectionCommand(motor, Upper(direction))
    ensures DirectionCommand(motor, direction).Some? <==>
      motor == "both" && (Upper(direction) == "FORWARD" || Upper(direction) == "REVERSE")
    ensures DirectionCommand(motor, direction) == Some(Forward) <==> motor == "both" && Upper(direction) == "FORWARD"
  {
    UpperIdempotent(direction);
  }

  /** `motor in ['left', 'right']`, and which record it names. */
  function MotorSide(motor: string): Option<Side> {
    if motor == "left" then Some(Left) else if motor == "right" then Some(Right) else None
  }

  /** The target a speed command leaves on each side. */
  function WithTarget(ms: Motors, side: Side, speed: int): (r: Motors)
    ensures r.Get(side).target == speed
    ensures r.Get(side) == ms.Get(side).(target := speed)
    ensures r.Get(side.Other()) == ms.Get(side.Other())
  {
    ms.With(side, ms.Get(side).(target := speed))
  }

  /** Both targets set to `speed`, nothing else changed. */
  function WithTargets(ms: Motors, speed: int): (r: Motors)
    ensures r.left == ms.left.(target := speed) && r.right == ms.right.(target := speed)
  {
    Motors(ms.left.(target := speed), ms.right.(target := speed))
  }
}
