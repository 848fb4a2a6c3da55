/** `SerialInterface` of `serial_interface.py`: the outbound command queue,
    the inbound data queue, the `running` flag and the port handle. The port
    itself is abstract: a connect attempt either opens it or fails, and one
    pass of the read loop finds nothing, a line, or a fault. Threads and
    sleeps are gone; one pass of each loop is one method call. */
module Serial {
  import opened Wrappers
  import opened Text

  /** `serial_conn`: no port object yet, or one that is open or was closed. */
  datatype Link = NoLink | Open | Closed

  /** What one pass of a read loop finds on a real port: nothing waiting, a
      decoded line, or a `SerialException`. */
  datatype Incoming = Idle | Received(raw: string) | Fault

  /** A line as the read loop queues it: `strip()`ped and non-empty. */
  predicate IsCleanLine(s: string) {
    s != [] && !IsSpace(s[0]) && !IsSpace(s[|s| - 1])
  }

  /** `raw.strip()`, when non-empty, is a clean line; the read loop queues
      exactly these. */
  lemma StripClean(raw: string)
    ensures Strip(raw) != [] ==> IsCleanLine(Strip(raw))
    ensures |Strip(raw)| <= |raw|
  {
    var l := StripLeft(raw);
    var r := StripRight(l);
    if r != [] {
      assert r == l[..|r|];
      assert r[0] == l[0];
    }
  }

  /** Appending a clean line to a queue of clean lines keeps it clean. */
  lemma CleanSnoc(queue: seq<string>, line: string)
    requires forall k :: 0 <= k < |queue| ==> IsCleanLine(queue[k])
    requires IsCleanLine(line)
    ensures forall k :: 0 <= k < |queue + [line]| ==> IsCleanLine((queue + [line])[k])
  {
    forall k | 0 <= k < |queue + [line]| ensures IsCleanLine((queue + [line])[k]) {
      if k < |queue| {
        assert (queue + [line])[k] == queue[k];
      }
    }
  }

  class SerialInterface {
    const simulate: bool
    var link: Link
    var running: bool
    /** `data_queue`, oldest line first. */
    var dataQueue: seq<string>
    /** `command_queue`, oldest command first. */
    var commandQueue: seq<string>
    /** What the write loop has written to the port, one entry per `write`. */
    var written: seq<string>

    /** Lines that came from a real port are clean; simulated ones are
        whatever the generator produced. */
    predicate Valid()
      reads this
    {
      !simulate ==> forall k :: 0 <= k < |dataQueue| ==> IsCleanLine(dataQueue[k])
    }

    constructor (simulate: bool)
      ensures this.simulate == simulate
      ensures link == NoLink && !running
      ensures dataQueue == [] && commandQueue == [] && written == []
      ensures Valid()
    {
      this.simulate := simulate;
      link := NoLink;
      running := false;
      dataQueue := [];
      commandQueue := [];
      written := [];
    }

    /** `is_connected()` */
    predicate IsConnected()
      reads this
    {
      simulate || link == Open
    }

    /** `connect()`, where `success` says whether `serial.Serial(...)` opened
        the configured port. Simulation succeeds without touching the port. */
    method Connect(success: bool) returns (ok: bool)
      modifies this`link
      ensures simulate ==> ok && link == old(link)
      ensures !simulate ==> ok == success && link == (if success then Open else old(link))
      ensures ok ==> IsConnected()
    {
      if simulate {
        return true;
      }
      if success {
        link := Open;
        return true;
      }
      return false;
    }

    /** `start()`: `running` becomes true exactly when `connect()` succeeds,
        and is otherwise left as it was. */
    method Start(success: bool)
      modifies this`link, this`running
      ensures running == (old(running) || simulate || success)
      ensures link == (if !simulate && success then Open else old(link))
      ensures (simulate || success) ==> IsConnected()
    {
      var ok := Connect(success);
      if ok {
        running := true;
      }
    }

    /** `stop()`: `running` is false afterwards and an open port is closed. */
    method Stop()
      modifies this`link, this`running
      ensures !running
      ensures link == (if old(link) == Open then Closed else old(link))
      ensures IsConnected() <==> simulate
    {
      running := false;
      if link == Open {
        link := Closed;
      }
    }

    /** `send_command(command)`: the command joins the tail of the queue. */
    method SendCommand(command: string)
      modifies this`commandQueue
      ensures commandQueue == old(commandQueue) + [command]
    {
      commandQueue := commandQueue + [command];
    }

    /** `get_data()`: the oldest line, or `None` and no change when the
        queue is empty. */
    method GetData() returns (r: Option<string>)
      requires Valid()
      modifies this`dataQueue
      ensures Valid()
      ensures old(dataQueue) == [] ==> r.None? && dataQueue == []
      ensures old(dataQueue) != [] ==> r == Some(old(dataQueue)[0]) && dataQueue == old(dataQueue)[1..]
      ensures r.Some? ==> old(dataQueue) == [r.value] + dataQueue
    {
      if dataQueue == [] {
        return None;
      }
      r := Some(dataQueue[0]);
      dataQueue := dataQueue[1..];
    }

    /** `get_all_data()`: takes lines off the head of the queue until it is
        empty, so the result is every queued line in arrival order. */
    method GetAllData() returns (data: seq<string>)
      requires Valid()
      modifies this`dataQueue
      ensures Valid()
      ensures data == old(dataQueue) && dataQueue == []
      ensures !simulate ==> forall k :: 0 <= k < |data| ==> IsCleanLine(data[k])
    {
      data := [];
      while dataQueue != []
        invariant data + dataQueue == old(dataQueue)
        invariant Valid()
        decreases |dataQueue|
      {
        data := data + [dataQueue[0]];
        dataQueue := dataQueue[1..];
      }
    }

    /** One pass of `_read_loop` while `running`: simulation queues the
        generated lines; an open port with a line waiting queues its
        `strip()`ped text when that is non-empty. A fault is logged and
        changes nothing. Once `running` is false the loop has ended. */
    method ReadStep(generated: seq<string>, incoming: Incoming)
      requires Valid()
      modifies this`dataQueue
      ensures Valid()
      ensures !running ==> dataQueue == old(dataQueue)
      ensures running && simulate ==> dataQueue == old(dataQueue) + generated
      ensures running && !simulate ==>
        dataQueue == old(dataQueue)
          + (if link == Open && incoming.Received? && Strip(incoming.raw) != [] then [Strip(incoming.raw)] else [])
    {
      if !running {
        return;
      }
      if simulate {
        dataQueue := dataQueue + generated;
      } else if link == Open && incoming.Received? {
        QueueStripped(incoming.raw);
      }
    }

    /** A line read from the port joins the data queue once stripped,
        unless nothing is left of it. */
    method QueueStripped(raw: string)
      requires Valid() && !simulate
      modifies this`dataQueue
      ensures Valid()
      ensures dataQueue == old(dataQueue) + (if Strip(raw) != [] then [Strip(raw)] else [])
    {
      var line := Strip(raw);
      StripClean(raw);
      if line != [] {
        CleanSnoc(dataQueue, line);
        dataQueue := dataQueue + [line];
      }
    }

    /** One pass of `_write_loop` while `running`: the head command leaves
        the queue; on an open real port it is written with a trailing
        newline, unless the write raises (`fault`), when it is lost. */
    method WriteStep(fault: bool)
      modifies this`commandQueue, this`written
      ensures !running || old(commandQueue) == [] ==>
        commandQueue == old(commandQueue) && written == old(written)
      ensures running && old(commandQueue) != [] ==> commandQueue == old(commandQueue)[1..]
      ensures running && old(commandQueue) != [] ==>
        written == old(written)
          + (if !simulate && link == Open && !fault then [old(commandQueue)[0] + "\n"] else [])
    {
      if running && commandQueue != [] {
        var command := commandQueue[0];
        commandQueue := commandQueue[1..];
        if !simulate && link == Open && !fault {
          written := written + [command + "\n"];
        }
      }
    }
  }
}
