/** `MotorController` of `motor_controller.py`: the two motor records, the
    system flags and the nine-column history, updated in place by the
    telemetry decoder, the command methods and one pass of the update loop.
    The history is tied by `Valid` to the ghost sequence of every row ever
    recorded: it always holds exactly the newest `maxHistory` of them. */
module MotorControl {
  import opened Wrappers
  import opened Records
  import opened History
  import opened Telemetry
  import opened Commands
  import Serial

  /** How a call ended: a returned value, or an exception that escaped it. */
  datatype CallResult = Returned(value: bool) | Raised(error: string)

  class MotorController {
    const simulate: bool
    const serial: Serial.SerialInterface
    const maxHistory: nat := 1000
    /** `motor_data` */
    var motors: Motors
    /** `system_status` */
    var system: SystemStatus
    /** `data_history` */
    var history: Table
    /** Every row `_process_data` has recorded, oldest first. */
    ghost var samples: seq<Sample>
    var running: bool

    ghost predicate Valid()
      reads this, serial
    {
      && history == Tabulate(Newest(samples, maxHistory))
      && system.simulationMode == simulate
      && serial.simulate == simulate
      && serial.Valid()
    }

    /** `__init__`: both motors stopped, all flags false except
        `simulation_mode`, nine empty history columns and a fresh serial
        interface that is neither connected nor running. */
    constructor (simulate: bool)
      ensures this.simulate == simulate
      ensures motors == InitialMotors && system == InitialSystem(simulate)
      ensures history == EmptyTable && samples == [] && !running
      ensures fresh(serial) && serial.link == Serial.NoLink && !serial.running
      ensures serial.dataQueue == [] && serial.commandQueue == [] && serial.written == []
      ensures Valid()
    {
      this.simulate := simulate;
      serial := new Serial.SerialInterface(simulate);
      motors := InitialMotors;
      system := InitialSystem(simulate);
      history := EmptyTable;
      samples := [];
      running := false;
      new;
      assert Tabulate(Newest([], maxHistory)) == EmptyTable;
    }

    /** `start()`: the serial interface is started (its `running` follows
        the connect outcome `success`) and the controller runs regardless. */
    method Start(success: bool)
      requires Valid()
      modifies this`running, serial`link, serial`running
      ensures Valid() && running
      ensures serial.running == (old(serial.running) || simulate || success)
      ensures serial.link == (if !simulate && success then Serial.Open else old(serial.link))
    {
      serial.Start(success);
      running := true;
    }

    /** `stop()` */
    method Stop()
      requires Valid()
      modifies this`running, serial`link, serial`running
      ensures Valid() && !running && !serial.running
      ensures serial.link == (if old(serial.link) == Serial.Open then Serial.Closed else old(serial.link))
    {
      running := false;
      serial.Stop();
    }

    /** `_process_data(line)` at time `now`: the records become those the
        line describes; a row is recorded unless a conversion raised, and
        the history then shows the newest `maxHistory` rows. */
    method ProcessData(line: string, now: nat)
      requires Valid()
      modifies this`motors, this`history, this`samples
      ensures Valid()
      ensures motors == ApplyLine(old(motors), line).motors
      ensures samples == old(samples) + Recorded(ApplyLine(old(motors), line), now)
    {
      TabulateIsTable(Newest(samples, maxHistory));
      var ms, h := ProcessLine(motors, history, line, now, maxHistory);
      ghost var rows := Recorded(ApplyLine(motors, line), now);
      RecordRows(samples, rows, history, h, maxHistory);
      samples := samples + rows;
      motors, history := ms, h;
    }

    /** The `for line in data` loop of `_update_loop`: each line in turn. */
    method ProcessAll(data: seq<string>, now: nat)
      requires Valid()
      modifies this`motors, this`history, this`samples
      ensures Valid()
      ensures motors == ApplyAll(old(motors), data, now).motors
      ensures samples == old(samples) + ApplyAll(old(motors), data, now).rows
    {
      var i := 0;
      while i < |data|
        invariant 0 <= i <= |data|
        invariant Valid()
        invariant motors == ApplyAll(old(motors), data[..i], now).motors
        invariant samples == old(samples) + ApplyAll(old(motors), data[..i], now).rows
      {
        ghost var done := ApplyAll(old(motors), data[..i], now).rows;
        ghost var last := ApplyLine(motors, data[i]);
        ApplyAllSnoc(old(motors), data[..i], data[i], now);
        TakeSnoc(data, i);
        ProcessData(data[i], now);
        AppendAssoc(old(samples), done, Recorded(last, now));
        i := i + 1;
      }
      TakeAll(data);
    }

    /** One pass of `_update_loop` while the controller is `running`, every
        line stamped `now`: when connected, the queued lines are drained and
        processed in arrival order; otherwise a real interface is restarted
        with connect outcome `success`. Either way `serial_connected` is
        refreshed. Once `running` is false the loop has ended and nothing
        changes. */
    method UpdateStep(now: nat, success: bool)
      requires Valid()
      modifies this`motors, this`history, this`samples, this`system
      modifies serial`dataQueue, serial`link, serial`running
      ensures Valid()
      ensures !running ==>
        && motors == old(motors) && samples == old(samples) && system == old(system)
        && serial.dataQueue == old(serial.dataQueue)
        && serial.link == old(serial.link) && serial.running == old(serial.running)
      ensures running && old(serial.IsConnected()) ==>
        && motors == ApplyAll(old(motors), old(serial.dataQueue), now).motors
        && samples == old(samples) + ApplyAll(old(motors), old(serial.dataQueue), now).rows
        && serial.dataQueue == []
        && serial.link == old(serial.link) && serial.running == old(serial.running)
      ensures running && !old(serial.IsConnected()) ==>
        && motors == old(motors) && samples == old(samples)
        && serial.dataQueue == old(serial.dataQueue)
        && serial.running == (old(serial.running) || success)
        && serial.link == (if success then Serial.Open else old(serial.link))
      ensures running ==> system == old(system).(serialConnected := serial.IsConnected())
    {
      if !running {
        return;
      }
      if serial.IsConnected() {
        var data := serial.GetAllData();
        ProcessAll(data, now);
      } else if !simulate {
        serial.Start(success);
      }
      system := system.(serialConnected := serial.IsConnected());
    }

    /** `set_speed(motor, speed)`: for `'left'`/`'right'`, queues `ML:<speed>`
        or `MR:<speed>` and sets that motor's target, unclamped; any other
        motor name does nothing. */
    method SetSpeed(motor: string, speed: int)
      requires Valid()
      modifies this`motors, serial`commandQueue
      ensures Valid()
      ensures MotorSide(motor).Some? ==>
        var side := MotorSide(motor).value;
        && serial.commandQueue == old(serial.commandQueue) + [Wire(Speed(side, speed))]
        && motors == WithTarget(old(motors), side, speed)
      ensures MotorSide(motor).None? ==>
        serial.commandQueue == old(serial.commandQueue) && motors == old(motors)
    {
      if motor == "left" || motor == "right" {
        var side := if motor == "left" then Left else Right;
        serial.SendCommand(Wire(Speed(side, speed)));
        motors := motors.With(side, motors.Get(side).(target := speed));
      }
    }

    /** `set_both_speeds(speed)`: queues `BOTH:<speed>` and sets both targets. */
    method SetBothSpeeds(speed: int)
      requires Valid()
      modifies this`motors, serial`commandQueue
      ensures Valid()
      ensures serial.commandQueue == old(serial.commandQueue) + [Wire(Both(speed))]
      ensures motors == WithTargets(old(motors), speed)
    {
      serial.SendCommand(Wire(Both(speed)));
      motors := motors.(left := motors.left.(target := speed));
      motors := motors.(right := motors.right.(target := speed));
    }

    /** `set_direction(motor, direction)`: sends `F` or `R` for `'both'` and
        a direction that upper-cases to `FORWARD`/`REVERSE`; every other
        combination sends nothing. No record changes. */
    method SetDirection(motor: string, direction: string)
      requires Valid()
      modifies serial`commandQueue
      ensures Valid()
      ensures serial.commandQueue == old(serial.commandQueue)
        + (match DirectionCommand(motor, direction) case Some(c) => [Wire(c)] case None => [])
    {
      if motor == "both" {
        var upper := Text.Upper(direction);
        if upper == "FORWARD" {
          serial.SendCommand(Wire(Forward));
        } else if upper == "REVERSE" {
          serial.SendCommand(Wire(Reverse));
        }
      }
    }

    /** `stop_motors()`: queues `S` and zeroes both targets. */
    method StopMotors()
      requires Valid()
      modifies this`motors, serial`commandQueue
      ensures Valid()
      ensures serial.commandQueue == old(serial.commandQueue) + [Wire(StopAll)]
      ensures motors == WithTargets(old(motors), 0)
    {
      serial.SendCommand(Wire(StopAll));
      motors := WithTargets(motors, 0);
    }

    /** `coast_motors()`: queues `COAST` and zeroes both targets. */
    method CoastMotors()
      requires Valid()
      modifies this`motors, serial`commandQueue
      ensures Valid()
      ensures serial.commandQueue == old(serial.commandQueue) + [Wire(Coast)]
      ensures motors == WithTargets(old(motors), 0)
    {
      serial.SendCommand(Wire(Coast));
      motors := WithTargets(motors, 0);
    }

    /** `emergency_stop()`: queues `E` and raises the emergency flag. */
    method EmergencyStop()
      requires Valid()
      modifies this`system, serial`commandQueue
      ensures Valid()
      ensures serial.commandQueue == old(serial.commandQueue) + [Wire(Emergency)]
      ensures system == old(system).(emergencyStop := true)
    {
      serial.SendCommand(Wire(Emergency));
      system := system.(emergencyStop := true);
    }

    /** `clear_emergency()`: queues `C` and lowers the emergency flag. */
    method ClearEmergency()
      requires Valid()
      modifies this`system, serial`commandQueue
      ensures Valid()
      ensures serial.commandQueue == old(serial.commandQueue) + [Wire(Clear)]
      ensures system == old(system).(emergencyStop := false)
    {
      serial.SendCommand(Wire(Clear));
      system := system.(emergencyStop := false);
    }

    /** `activate_soft_brake()`: queues `SOFTBRAKE` and sets `braking`. */
    method ActivateSoftBrake()
      requires Valid()
      modifies this`system, serial`commandQueue
      ensures Valid()
      ensures serial.commandQueue == old(serial.commandQueue) + [Wire(SoftBrake)]
      ensures system == old(system).(braking := true)
    {
      serial.SendCommand(Wire(SoftBrake));
      system := system.(braking := true);
    }

    /** `activate_hard_brake()`: queues `HARDBRAKE` and sets `braking`. */
    method ActivateHardBrake()
      requires Valid()
      modifies this`system, serial`commandQueue
      ensures Valid()
      ensures serial.commandQueue == old(serial.commandQueue) + [Wire(HardBrake)]
      ensures system == old(system).(braking := true)
    {
      serial.SendCommand(Wire(HardBrake));
      system := system.(braking := true);
    }

    /** `send_pid_command(text)` as written: the text is queued, then the
        log call looks up `self.logger`, which this class never defines; the
        handler's own log call fails the same way, so the `AttributeError`
        escapes and the method never returns `True`. */
    method SendPidCommand(pidCommand: string) returns (r: CallResult)
      requires Valid()
      modifies serial`commandQueue
      ensures Valid()
      ensures serial.commandQueue == old(serial.commandQueue) + [pidCommand]
      ensures r == Raised("AttributeError")
    {
      serial.SendCommand(pidCommand);
      r := Raised("AttributeError");
    }

    /** `send_pid_command(text)` as its docstring and its `return True`
        intend, with logging that does not fail: the text is queued and the
        call reports success. */
    method SendPidCommandLogged(pidCommand: string) returns (r: CallResult)
      requires Valid()
      modifies serial`commandQueue
      ensures Valid()
      ensures serial.commandQueue == old(serial.commandQueue) + [pidCommand]
      ensures r == Returned(true)
    {
      serial.SendCommand(pidCommand);
      r := Returned(true);
    }

    /** `get_status()` at time `now`. */
    method GetStatus(now: nat) returns (s: Status)
      ensures s.motors == motors && s.system == system && s.timestamp == now
    {
      s := Status(motors, system, now);
    }

    /** `get_history()`: nine columns of one common length, at most
        `maxHistory`, whose entries are the fields of the newest rows in
        order. */
    method GetHistory() returns (h: Table)
      requires Valid()
      ensures h == history
      ensures var n := if |samples| <= maxHistory then |samples| else maxHistory;
        && Rectangular(h, n) && n <= maxHistory
        && forall c, k :: c in AllColumns && 0 <= k < n ==> h[c][k] == Field(samples[|samples| - n + k], c)
    {
      TabulateShape(samples, maxHistory);
      h := history;
    }
  }
}
