/** The controller's per-motor and system records (the `motor_data` and
    `system_status` dictionaries), as values. */
module Records {
  import opened Wrappers

  /** An RPM, MPH or KPH reading. The records start at the integer 0; after a
      telemetry line they hold the float that `float()` made of a token,
      kept here as that token's text. */
  datatype Rate = Zero | Reading(text: string)

  /** One entry of `motor_data`. `direction` holds whatever text the last
      `STATUS` line carried; `target` whatever the last command set. */
  datatype Motor = Motor(
    speed: int,
    target: int,
    direction: string,
    pulses: int,
    rpm: Rate,
    mph: Rate,
    kph: Rate)

  /** The record both motors start with. */
  const StoppedMotor := Motor(0, 0, "STOPPED", 0, Zero, Zero, Zero)

  datatype Side = Left | Right {
    function Other(): Side {
      if this == Left then Right else Left
    }
  }

  /** `motor_data`: the `'left'` and `'right'` entries. */
  datatype Motors = Motors(left: Motor, right: Motor) {
    function Get(side: Side): Motor {
      if side == Left then left else right
    }

    function With(side: Side, m: Motor): Motors {
      if side == Left then this.(left := m) else this.(right := m)
    }
  }

  const InitialMotors := Motors(StoppedMotor, StoppedMotor)

  /** `system_status`. `lastHeartbeat` is `None` for Python's `None`. */
  datatype SystemStatus = SystemStatus(
    emergencyStop: bool,
    braking: bool,
    rosConnected: bool,
    lastHeartbeat: Option<nat>,
    serialConnected: bool,
    simulationMode: bool)

  function InitialSystem(simulate: bool): SystemStatus {
    SystemStatus(false, false, false, None, false, simulate)
  }

  /** What `get_status` returns: both records and the time it was asked. */
  datatype Status = Status(motors: Motors, system: SystemStatus, timestamp: nat)
}
