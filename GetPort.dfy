/** `getport.py`: picking the serial port an Arduino is on from the list
    the operating system reports, and listing every port. The port list is
    an input here rather than a call into the serial library. */
module GetPort {
  import opened Wrappers
  import opened Text

  /** One entry of `comports()`: the device path and its description. */
  datatype PortInfo = PortInfo(device: string, description: string)

  /** The substrings that mark a description as an Arduino or one of the
      usual USB-serial chips on Arduino clones. */
  const Markers: seq<string> := ["Arduino", "USB Serial", "CH340", "FT232"]

  /** The condition on one port's description. */
  predicate IsArduino(p: PortInfo) {
    Contains(p.description, "Arduino")
    || Contains(p.description, "USB Serial")
    || Contains(p.description, "CH340")
    || Contains(p.description, "FT232")
  }

  /** The condition says exactly "the description contains one of the
      markers". */
  lemma IsArduinoMarkers(p: PortInfo)
    ensures IsArduino(p) <==> exists m :: m in Markers && Contains(p.description, m)
  {
    if IsArduino(p) {
      var m :| m in Markers && Contains(p.description, m);
    }
  }

  /** The position of the first matching port, scanning from `from`. */
  function FirstArduino(ports: seq<PortInfo>, from: nat): (r: Option<nat>)
    requires from <= |ports|
    ensures r.Some? ==> from <= r.value < |ports| && IsArduino(ports[r.value])
    ensures r.Some? ==> forall j :: from <= j < r.value ==> !IsArduino(ports[j])
    ensures r.None? ==> forall j :: from <= j < |ports| ==> !IsArduino(ports[j])
    decreases |ports| - from
  {
    if from == |ports| then None
    else if IsArduino(ports[from]) then Some(from)
    else FirstArduino(ports, from + 1)
  }

  /** `find_arduino_port()`: the device of the first port whose description
      matches, or `None` when no port matches. */
  function FindArduinoPort(ports: seq<PortInfo>): (r: Option<string>)
    ensures r.None? <==> forall j :: 0 <= j < |ports| ==> !IsArduino(ports[j])
    ensures r.Some? ==> exists i :: (
      && 0 <= i < |ports| && IsArduino(ports[i])
      && r.value == ports[i].device
      && forall j :: 0 <= j < i ==> !IsArduino(ports[j]))
  {
    match FirstArduino(ports, 0)
    case None => None
    case Some(i) => Some(ports[i].device)
  }

  /** The search is a first match: whatever precedes the first matching
      port is irrelevant, and what follows it is never looked at. */
  lemma {:induction false} FindArduinoPortFirst(before: seq<PortInfo>, p: PortInfo, after: seq<PortInfo>)
    requires forall j :: 0 <= j < |before| ==> !IsArduino(before[j])
    requires IsArduino(p)
    ensures FindArduinoPort(before + [p] + after) == Some(p.device)
  {
    var ports := before + [p] + after;
    assert ports[|before|] == p;
    forall j | 0 <= j < |before| ensures ports[j] == before[j] {
    }
  }

  /** Appending ports after a list that already has a match does not change
      the answer; appending to a list without one searches only the new
      ports. */
  lemma FindArduinoPortAppend(ports: seq<PortInfo>, more: seq<PortInfo>)
    ensures FindArduinoPort(ports).Some? ==> FindArduinoPort(ports + more) == FindArduinoPort(ports)
    ensures FindArduinoPort(ports).None? ==> FindArduinoPort(ports + more) == FindArduinoPort(more)
  {
    match FirstArduino(ports, 0)
    case Some(i) =>
      assert ports == ports[..i] + [ports[i]] + ports[i + 1..];
      assert ports + more == ports[..i] + [ports[i]] + (ports[i + 1..] + more);
      FindArduinoPortFirst(ports[..i], ports[i], ports[i + 1..] + more);
    case None =>
      AppendAfterNoMatch(ports, more);
  }

  /** Behind a list without a match, only the appended ports decide. */
  lemma AppendAfterNoMatch(ports: seq<PortInfo>, more: seq<PortInfo>)
    requires forall j :: 0 <= j < |ports| ==> !IsArduino(ports[j])
    ensures FindArduinoPort(ports + more) == FindArduinoPort(more)
  {
    var all := ports + more;
    match FirstArduino(more, 0)
    case Some(k) =>
      var before := ports + more[..k];
      assert all == before + [more[k]] + more[k + 1..];
      forall j | 0 <= j < |before| ensures !IsArduino(before[j]) {
        if j >= |ports| {
          assert before[j] == more[j - |ports|];
        }
      }
      FindArduinoPortFirst(before, more[k], more[k + 1..]);
    case None =>
      forall j | 0 <= j < |all| ensures !IsArduino(all[j]) {
        if j >= |ports| {
          assert all[j] == more[j - |ports|];
        }
      }
  }

  /** `list_all_ports()`: one `{"device", "description"}` dictionary per
      port, in the order the ports were reported. */
  function ListAllPorts(ports: seq<PortInfo>): (r: seq<map<string, string>>)
    ensures |r| == |ports|
    ensures forall i :: 0 <= i < |ports| ==>
      r[i].Keys == {"device", "description"}
      && r[i]["device"] == ports[i].device
      && r[i]["description"] == ports[i].description
  {
    seq(|ports|, i requires 0 <= i < |ports| =>
      map["device" := ports[i].device, "description" := ports[i].description])
  }

  /** The port the search picks appears in the listing, with a description
      the search accepts. */
  lemma FoundIsListed(ports: seq<PortInfo>)
    requires FindArduinoPort(ports).Some?
    ensures exists i :: (
      && 0 <= i < |ListAllPorts(ports)|
      && ListAllPorts(ports)[i]["device"] == FindArduinoPort(ports).value
      && IsArduino(PortInfo(FindArduinoPort(ports).value, ListAllPorts(ports)[i]["description"])))
  {
    var i :| 0 <= i < |ports| && IsArduino(ports[i])
      && FindArduinoPort(ports).value == ports[i].device
      && forall j :: 0 <= j < i ==> !IsArduino(ports[j]);
    assert PortInfo(ports[i].device, ports[i].description) == ports[i];
    assert ListAllPorts(ports)[i]["device"] == ports[i].device;
    assert ListAllPorts(ports)[i]["description"] == ports[i].description;
  }
}
