/** The copies of `SerialInterface` and `MotorController` in `ui.py`. The
    serial interface adds a connection-attempt counter with a severity
    threshold, a stop-then-start reconnect on read and write faults, and a
    port status text; the controller is the one of `motor_controller.py`
    over this interface. */
module Ui {
  import opened Wrappers
  import opened Text
  import opened Records
  import opened History
  import opened Telemetry
  import opened Commands
  import Serial

  /** How `serial.Serial(...)` ended: the port opened, a `SerialException`,
      or any other exception. */
  datatype ConnectOutcome = Opened | SerialFailure | OtherFailure

  /** The level a connect attempt is logged at. */
  datatype LogLevel = Info | Warning | Error

  /** The connection-attempt counter after a real `connect()` with this
      outcome: reset on success, bumped on a `SerialException`, kept on any
      other exception. */
  function AttemptsAfter(outcome: ConnectOutcome, attempts: nat): nat {
    match outcome
    case Opened => 0
    case SerialFailure => attempts + 1
    case OtherFailure => attempts
  }

  /** The link after `stop()`: an open port is closed, any other is kept. */
  function Reclosed(link: Serial.Link): Serial.Link {
    if link == Serial.Open then Serial.Closed else link
  }

  class SerialInterface {
    const simulate: bool
    /** `config['serial']['port']` */
    const portName: string
    const maxConnectionAttempts: nat := 5
    var link: Serial.Link
    var running: bool
    var connectionAttempts: nat
    var dataQueue: seq<string>
    var commandQueue: seq<string>
    var written: seq<string>

    predicate Valid()
      reads this
    {
      !simulate ==> forall k :: 0 <= k < |dataQueue| ==> Serial.IsCleanLine(dataQueue[k])
    }

    constructor (simulate: bool, portName: string)
      ensures this.simulate == simulate && this.portName == portName
      ensures link == Serial.NoLink && !running && connectionAttempts == 0
      ensures dataQueue == [] && commandQueue == [] && written == []
      ensures Valid()
    {
      this.simulate := simulate;
      this.portName := portName;
      link := Serial.NoLink;
      running := false;
      connectionAttempts := 0;
      dataQueue := [];
      commandQueue := [];
      written := [];
    }

    /** `is_connected()` */
    predicate IsConnected()
      reads this
    {
      simulate || link == Serial.Open
    }

    /** `connect()` with the outcome of opening the port. Simulation
        succeeds at warning level and leaves the counter alone; an opened
        port resets the counter; a `SerialException` bumps it and is a
        warning up to `maxConnectionAttempts` attempts and an error beyond;
        any other exception is an error and leaves the counter alone. */
    method Connect(outcome: ConnectOutcome) returns (ok: bool, level: LogLevel)
      modifies this`link, this`connectionAttempts
      ensures simulate ==>
        ok && level == Warning && link == old(link) && connectionAttempts == old(connectionAttempts)
      ensures !simulate ==> (ok <==> outcome == Opened)
      ensures !simulate && outcome == Opened ==>
        link == Serial.Open && connectionAttempts == 0 && level == Info
      ensures !simulate && outcome == SerialFailure ==>
        && link == old(link)
        && connectionAttempts == old(connectionAttempts) + 1
        && (level == Warning <==> connectionAttempts <= maxConnectionAttempts)
        && (level == Error <==> connectionAttempts > maxConnectionAttempts)
      ensures !simulate && outcome == OtherFailure ==>
        link == old(link) && connectionAttempts == old(connectionAttempts) && level == Error
      ensures ok ==> IsConnected()
    {
      if simulate {
        return true, Warning;
      }
      match outcome
      case Opened =>
        link := Serial.Open;
        connectionAttempts := 0;
        ok, level := true, Info;
      case SerialFailure =>
        connectionAttempts := connectionAttempts + 1;
        if connectionAttempts <= maxConnectionAttempts {
          level := Warning;
        } else {
          level := Error;
        }
        ok := false;
      case OtherFailure =>
        ok, level := false, Error;
    }

    /** `start()`: `running` becomes true exactly when `connect()` succeeds. */
    method Start(outcome: ConnectOutcome)
      modifies this`link, this`running, this`connectionAttempts
      ensures running == (old(running) || simulate || outcome == Opened)
      ensures simulate ==> link == old(link) && connectionAttempts == old(connectionAttempts)
      ensures !simulate ==> link == (if outcome == Opened then Serial.Open else old(link))
      ensures !simulate ==> connectionAttempts == AttemptsAfter(outcome, old(connectionAttempts))
    {
      var ok, _ := Connect(outcome);
      if ok {
        running := true;
      }
    }

    /** `stop()`: `running` is false afterwards and an open port is closed. */
    method Stop()
      modifies this`link, this`running
      ensures !running
      ensures link == Reclosed(old(link))
      ensures IsConnected() <==> simulate
    {
      running := false;
      if link == Serial.Open {
        link := Serial.Closed;
      }
    }

    /** `_handle_serial_error()`: nothing in simulation; otherwise `stop()`
        then `start()`, so `running` ends equal to the new connect outcome
        and a port left open is closed unless the reconnect opens it. */
    method HandleSerialError(outcome: ConnectOutcome)
      modifies this`link, this`running, this`connectionAttempts
      ensures simulate ==>
        link == old(link) && running == old(running) && connectionAttempts == old(connectionAttempts)
      ensures !simulate ==> (running <==> outcome == Opened)
      ensures !simulate ==> link == (if outcome == Opened then Serial.Open else Reclosed(old(link)))
      ensures !simulate ==> (IsConnected() <==> outcome == Opened)
      ensures !simulate ==> connectionAttempts == AttemptsAfter(outcome, old(connectionAttempts))
    {
      if !simulate {
        Stop();
        Start(outcome);
      }
    }

    /** `send_command(command)`: queues the command and reports `True`. */
    method SendCommand(command: string) returns (ok: bool)
      modifies this`commandQueue
      ensures commandQueue == old(commandQueue) + [command]
      ensures ok
    {
      commandQueue := commandQueue + [command];
      ok := true;
    }

    /** `get_data()`: the oldest line, or `None` and no change when empty. */
    method GetData() returns (r: Option<string>)
      requires Valid()
      modifies this`dataQueue
      ensures Valid()
      ensures old(dataQueue) == [] ==> r.None? && dataQueue == []
      ensures old(dataQueue) != [] ==> r == Some(old(dataQueue)[0]) && dataQueue == old(dataQueue)[1..]
    {
      if dataQueue == [] {
        return None;
      }
      r := Some(dataQueue[0]);
      dataQueue := dataQueue[1..];
    }

    /** `get_all_data()`: every queued line in arrival order; the queue is
        left empty. */
    method GetAllData() returns (data: seq<string>)
      requires Valid()
      modifies this`dataQueue
      ensures Valid()
      ensures data == old(dataQueue) && dataQueue == []
    {
      data := [];
      while dataQueue != []
        invariant data + dataQueue == old(dataQueue)
        invariant Valid()
        decreases |dataQueue|
      {
        data := data + [dataQueue[0]];
        dataQueue := dataQueue[1..];
      }
    }

    /** One pass of `_read_loop` while `running`: simulation queues the
        generated lines; a real interface reads from its port. */
    method ReadStep(generated: seq<string>, incoming: Serial.Incoming, reconnect: ConnectOutcome)
      requires Valid()
      modifies this`dataQueue, this`link, this`running, this`connectionAttempts
      ensures Valid()
      ensures !old(running) ==>
        && dataQueue == old(dataQueue) && link == old(link) && !running
        && connectionAttempts == old(connectionAttempts)
      ensures old(running) && simulate ==>
        && dataQueue == old(dataQueue) + generated
        && link == old(link) && running && connectionAttempts == old(connectionAttempts)
      ensures old(running) && !simulate ==>
        dataQueue == old(dataQueue)
          + (if old(link) == Serial.Open && incoming.Received? && Strip(incoming.raw) != []
             then [Strip(incoming.raw)] else [])
      ensures old(running) && !simulate && !(old(link) == Serial.Open && incoming.Fault?) ==>
        link == old(link) && running && connectionAttempts == old(connectionAttempts)
      ensures old(running) && !simulate && old(link) == Serial.Open && incoming.Fault? ==>
        && (running <==> reconnect == Opened)
        && link == (if reconnect == Opened then Serial.Open else Serial.Closed)
        && connectionAttempts == AttemptsAfter(reconnect, old(connectionAttempts))
    {
      if !running {
        return;
      }
      if simulate {
        dataQueue := dataQueue + generated;
      } else {
        ReadPort(incoming, reconnect);
      }
    }

    /** The real-port branch of a read pass: an open port queues a waiting
        line's non-empty `strip()`ped text, and a `SerialException` triggers
        the reconnect with outcome `reconnect`. */
    method ReadPort(incoming: Serial.Incoming, reconnect: ConnectOutcome)
      requires Valid() && !simulate
      modifies this`dataQueue, this`link, this`running, this`connectionAttempts
      ensures Valid()
      ensures dataQueue == old(dataQueue)
        + (if old(link) == Serial.Open && incoming.Received? && Strip(incoming.raw) != []
           then [Strip(incoming.raw)] else [])
      ensures !(old(link) == Serial.Open && incoming.Fault?) ==>
        link == old(link) && running == old(running) && connectionAttempts == old(connectionAttempts)
      ensures old(link) == Serial.Open && incoming.Fault? ==>
        && (running <==> reconnect == Opened)
        && link == (if reconnect == Opened then Serial.Open else Serial.Closed)
        && connectionAttempts == AttemptsAfter(reconnect, old(connectionAttempts))
    {
      if link == Serial.Open {
        match incoming
        case Idle =>
        case Received(raw) =>
          QueueStripped(raw);
        case Fault =>
          HandleSerialError(reconnect);
      }
    }

    /** A line read from the port joins the data queue once stripped,
        unless nothing is left of it. */
    method QueueStripped(raw: string)
      requires Valid() && !simulate
      modifies this`dataQueue
      ensures Valid()
      ensures dataQueue == old(dataQueue) + (if Strip(raw) != [] then [Strip(raw)] else [])
    {
      var line := Strip(raw);
      Serial.StripClean(raw);
      if line != [] {
        Serial.CleanSnoc(dataQueue, line);
        dataQueue := dataQueue + [line];
      }
    }

    /** One pass of `_write_loop` while `running`: the head command leaves
        the queue; on an open real port it is written with a newline, and a
        write fault triggers the reconnect with outcome `reconnect`. */
    method WriteStep(fault: bool, reconnect: ConnectOutcome)
      modifies this`commandQueue, this`written, this`link, this`running, this`connectionAttempts
      ensures !old(running) || old(commandQueue) == [] ==>
        && commandQueue == old(commandQueue) && written == old(written)
        && link == old(link) && running == old(running) && connectionAttempts == old(connectionAttempts)
      ensures old(running) && old(commandQueue) != [] ==> commandQueue == old(commandQueue)[1..]
      ensures old(running) && old(commandQueue) != [] ==>
        written == old(written)
          + (if !simulate && old(link) == Serial.Open && !fault then [old(commandQueue)[0] + "\n"] else [])
      ensures old(running) && old(commandQueue) != [] && !(!simulate && old(link) == Serial.Open && fault) ==>
        link == old(link) && running && connectionAttempts == old(connectionAttempts)
      ensures old(running) && old(commandQueue) != [] && !simulate && old(link) == Serial.Open && fault ==>
        && (running <==> reconnect == Opened)
        && link == (if reconnect == Opened then Serial.Open else Serial.Closed)
        && connectionAttempts == AttemptsAfter(reconnect, old(connectionAttempts))
    {
      if running && commandQueue != [] {
        var command := commandQueue[0];
        commandQueue := commandQueue[1..];
        if !simulate && link == Serial.Open {
          if fault {
            HandleSerialError(reconnect);
          } else {
            written := written + [command + "\n"];
          }
        }
      }
    }

    /** `get_port_status()` */
    function PortStatus(): (r: string)
      reads this
      ensures r == "Simulation Mode - No physical connection" <==> simulate
      ensures r == "Connected to " + portName <==> !simulate && link == Serial.Open
      ensures r == "Disconnected" <==> !simulate && link != Serial.Open
    {
      assert ("Connected to " + portName)[0] == 'C';
      if simulate then "Simulation Mode - No physical connection"
      else if link == Serial.Open then "Connected to " + portName
      else "Disconnected"
    }
  }

  /** The controller of `ui.py`: the same records, history and commands as
      `MotorControl.MotorController`, over this module's serial interface. */
  class MotorController {
    const simulate: bool
    const serial: SerialInterface
    const maxHistory: nat := 1000
    var motors: Motors
    var system: SystemStatus
    var history: Table
    ghost var samples: seq<Sample>
    var running: bool

    ghost predicate Valid()
      reads this, serial
    {
      && history == Tabulate(Newest(samples, maxHistory))
      && system.simulationMode == simulate
      && serial.simulate == simulate
      && serial.Valid()
    }

    /** `__init__` */
    constructor (simulate: bool, portName: string)
      ensures this.simulate == simulate
      ensures motors == InitialMotors && system == InitialSystem(simulate)
      ensures history == EmptyTable && samples == [] && !running
      ensures fresh(serial) && serial.portName == portName
      ensures serial.link == Serial.NoLink && !serial.running && serial.connectionAttempts == 0
      ensures serial.dataQueue == [] && serial.commandQueue == [] && serial.written == []
      ensures Valid()
    {
      this.simulate := simulate;
      serial := new SerialInterface(simulate, portName);
      motors := InitialMotors;
      system := InitialSystem(simulate);
      history := EmptyTable;
      samples := [];
      running := false;
      new;
      assert Tabulate(Newest([], maxHistory)) == EmptyTable;
    }

    /** `start()` */
    method Start(outcome: ConnectOutcome)
      requires Valid()
      modifies this`running, serial`link, serial`running, serial`connectionAttempts
      ensures Valid() && running
      ensures serial.running == (old(serial.running) || simulate || outcome == Opened)
      ensures simulate ==>
        serial.link == old(serial.link) && serial.connectionAttempts == old(serial.connectionAttempts)
      ensures !simulate ==>
        && serial.link == (if outcome == Opened then Serial.Open else old(serial.link))
        && serial.connectionAttempts == AttemptsAfter(outcome, old(serial.connectionAttempts))
    {
      serial.Start(outcome);
      running := true;
    }

    /** `stop()` */
    method Stop()
      requires Valid()
      modifies this`running, serial`link, serial`running
      ensures Valid() && !running && !serial.running
      ensures serial.link == Reclosed(old(serial.link))
      ensures serial.IsConnected() <==> simulate
    {
      running := false;
      serial.Stop();
    }

    /** `_process_data(line)` at time `now`. */
    method ProcessData(line: string, now: nat)
      requires Valid()
      modifies this`motors, this`history, this`samples
      ensures Valid()
      ensures motors == ApplyLine(old(motors), line).motors
      ensures samples == old(samples) + Recorded(ApplyLine(old(motors), line), now)
    {
      TabulateIsTable(Newest(samples, maxHistory));
      var ms, h := ProcessLine(motors, history, line, now, maxHistory);
      ghost var rows := Recorded(ApplyLine(motors, line), now);
      RecordRows(samples, rows, history, h, maxHistory);
      samples := samples + rows;
      motors, history := ms, h;
    }

    /** The `for line in data` loop of `_update_loop`. */
    method ProcessAll(data: seq<string>, now: nat)
      requires Valid()
      modifies this`motors, this`history, this`samples
      ensures Valid()
      ensures motors == ApplyAll(old(motors), data, now).motors
      ensures samples == old(samples) + ApplyAll(old(motors), data, now).rows
    {
      var i := 0;
      while i < |data|
        invariant 0 <= i <= |data|
        invariant Valid()
        invariant motors == ApplyAll(old(motors), data[..i], now).motors
        invariant samples == old(samples) + ApplyAll(old(motors), data[..i], now).rows
      {
        ghost var done := ApplyAll(old(motors), data[..i], now).rows;
        ghost var last := ApplyLine(motors, data[i]);
        ApplyAllSnoc(old(motors), data[..i], data[i], now);
        TakeSnoc(data, i);
        ProcessData(data[i], now);
        AppendAssoc(old(samples), done, Recorded(last, now));
        i := i + 1;
      }
      TakeAll(data);
    }

    /** One pass of `_update_loop` while the controller is `running`: when
        connected, drain and process the queued lines; otherwise restart a
        real interface with `outcome`; then refresh `serial_connected`.
        Once `running` is false the loop has ended and nothing changes. */
    method UpdateStep(now: nat, outcome: ConnectOutcome)
      requires Valid()
      modifies this`motors, this`history, this`samples, this`system
      modifies serial`dataQueue, serial`link, serial`running, serial`connectionAttempts
      ensures Valid()
      ensures !running ==>
        && motors == old(motors) && samples == old(samples) && system == old(system)
        && serial.dataQueue == old(serial.dataQueue) && serial.link == old(serial.link)
        && serial.running == old(serial.running)
        && serial.connectionAttempts == old(serial.connectionAttempts)
      ensures running && old(serial.IsConnected()) ==>
        && motors == ApplyAll(old(motors), old(serial.dataQueue), now).motors
        && samples == old(samples) + ApplyAll(old(motors), old(serial.dataQueue), now).rows
        && serial.dataQueue == []
        && serial.link == old(serial.link) && serial.running == old(serial.running)
        && serial.connectionAttempts == old(serial.connectionAttempts)
      ensures running && !old(serial.IsConnected()) ==>
        && motors == old(motors) && samples == old(samples)
        && serial.dataQueue == old(serial.dataQueue)
        && serial.running == (old(serial.running) || outcome == Opened)
        && serial.link == (if outcome == Opened then Serial.Open else old(serial.link))
        && serial.connectionAttempts == AttemptsAfter(outcome, old(serial.connectionAttempts))
      ensures running ==> system == old(system).(serialConnected := serial.IsConnected())
    {
      if !running {
        return;
      }
      if serial.IsConnected() {
        var data := serial.GetAllData();
        ProcessAll(data, now);
      } else if !simulate {
        serial.Start(outcome);
      }
      system := system.(serialConnected := serial.IsConnected());
    }

    /** `set_speed(motor, speed)` */
    method SetSpeed(motor: string, speed: int)
      requires Valid()
      modifies this`motors, serial`commandQueue
      ensures Valid()
      ensures MotorSide(motor).Some? ==>
        var side := MotorSide(motor).value;
        && serial.commandQueue == old(serial.commandQueue) + [Wire(Speed(side, speed))]
        && motors == WithTarget(old(motors), side, speed)
      ensures MotorSide(motor).None? ==>
        serial.commandQueue == old(serial.commandQueue) && motors == old(motors)
    {
      if motor == "left" || motor == "right" {
        var side := if motor == "left" then Left else Right;
        var _ := serial.SendCommand(Wire(Speed(side, speed)));
        motors := motors.With(side, motors.Get(side).(target := speed));
      }
    }

    /** `set_both_speeds(speed)` */
    method SetBothSpeeds(speed: int)
      requires Valid()
      modifies this`motors, serial`commandQueue
      ensures Valid()
      ensures serial.commandQueue == old(serial.commandQueue) + [Wire(Both(speed))]
      ensures motors == WithTargets(old(motors), speed)
    {
      var _ := serial.SendCommand(Wire(Both(speed)));
      motors := motors.(left := motors.left.(target := speed));
      motors := motors.(right := motors.right.(target := speed));
    }

    /** `set_direction(motor, direction)` */
    method SetDirection(motor: string, direction: string)
      requires Valid()
      modifies serial`commandQueue
      ensures Valid()
      ensures serial.commandQueue == old(serial.commandQueue)
        + (match DirectionCommand(motor, direction) case Some(c) => [Wire(c)] case None => [])
    {
      if motor == "both" {
        var upper := Upper(direction);
        if upper == "FORWARD" {
          var _ := serial.SendCommand(Wire(Forward));
        } else if upper == "REVERSE" {
          var _ := serial.SendCommand(Wire(Reverse));
        }
      }
    }

    /** `stop_motors()` */
    method StopMotors()
      requires Valid()
      modifies this`motors, serial`commandQueue
      ensures Valid()
      ensures serial.commandQueue == old(serial.commandQueue) + [Wire(StopAll)]
      ensures motors == WithTargets(old(motors), 0)
    {
      var _ := serial.SendCommand(Wire(StopAll));
      motors := WithTargets(motors, 0);
    }

    /** `coast_motors()` */
    method CoastMotors()
      requires Valid()
      modifies this`motors, serial`commandQueue
      ensures Valid()
      ensures serial.commandQueue == old(serial.commandQueue) + [Wire(Coast)]
      ensures motors == WithTargets(old(motors), 0)
    {
      var _ := serial.SendCommand(Wire(Coast));
      motors := WithTargets(motors, 0);
    }

    /** `emergency_stop()` */
    method EmergencyStop()
      requires Valid()
      modifies this`system, serial`commandQueue
      ensures Valid()
      ensures serial.commandQueue == old(serial.commandQueue) + [Wire(Emergency)]
      ensures system == old(system).(emergencyStop := true)
    {
      var _ := serial.SendCommand(Wire(Emergency));
      system := system.(emergencyStop := true);
    }

    /** `clear_emergency()` */
    method ClearEmergency()
      requires Valid()
      modifies this`system, serial`commandQueue
      ensures Valid()
      ensures serial.commandQueue == old(serial.commandQueue) + [Wire(Clear)]
      ensures system == old(system).(emergencyStop := false)
    {
      var _ := serial.SendCommand(Wire(Clear));
      system := system.(emergencyStop := false);
    }

    /** `activate_soft_brake()` */
    method ActivateSoftBrake()
      requires Valid()
      modifies this`system, serial`commandQueue
      ensures Valid()
      ensures serial.commandQueue == old(serial.commandQueue) + [Wire(SoftBrake)]
      ensures system == old(system).(braking := true)
    {
      var _ := serial.SendCommand(Wire(SoftBrake));
      system := system.(braking := true);
    }

    /** `activate_hard_brake()` */
    method ActivateHardBrake()
      requires Valid()
      modifies this`system, serial`commandQueue
      ensures Valid()
      ensures serial.commandQueue == old(serial.commandQueue) + [Wire(HardBrake)]
      ensures system == old(system).(braking := true)
    {
      var _ := serial.SendCommand(Wire(HardBrake));
      system := system.(braking := true);
    }

    /** `get_status()` at time `now`. */
    method GetStatus(now: nat) returns (s: Status)
      ensures s.motors == motors && s.system == system && s.timestamp == now
    {
      s := Status(motors, system, now);
    }

    /** `get_history()`: nine equally long columns, at most `maxHistory`
        long, holding the fields of the newest rows in order. */
    method GetHistory() returns (h: Table)
      requires Valid()
      ensures h == history
      ensures var n := if |samples| <= maxHistory then |samples| else maxHistory;
        && Rectangular(h, n) && n <= maxHistory
        && forall c, k :: c in AllColumns && 0 <= k < n ==> h[c][k] == Field(samples[|samples| - n + k], c)
    {
      TabulateShape(samples, maxHistory);
      h := history;
    }
  }
}
