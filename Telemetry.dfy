/** `_process_data`: how one inbound telemetry line changes the motor records
    and the history. A line either runs to the history update, or a failed
    `int()`/`float()` conversion (or a missing `split` piece) raises part way
    through; the exception is caught and logged, the assignments made before
    it stay made, and no history row is added. */
module Telemetry {
  import opened Wrappers
  import opened Text
  import opened Records
  import opened History

  /** A line's effect: the motor records after it, and whether processing
      reached the history update (`false` when a conversion raised). */
  datatype Applied = Applied(motors: Motors, ok: bool)

  /** The effect of one side's rate tokens on that side's record. */
  datatype RateUpdate = RateUpdate(motor: Motor, ok: bool)

  /** `float(part.split(':')[1])`, or `None` where that raises. */
  function RateOf(part: string): Option<Rate> {
    var fields := Split(part, ":");
    if |fields| >= 2 && IsFloatLiteral(fields[1]) then Some(Reading(fields[1])) else None
  }

  /** The `for part in parts` loop of one side of a rates line: a token
      holding `RPM:`, else `MPH:`, else `KPH:` overwrites that rate; other
      tokens are skipped; the first unconvertible value stops the loop. */
  function ApplyRates(m: Motor, parts: seq<string>): (r: RateUpdate)
    ensures r.motor == m.(rpm := r.motor.rpm, mph := r.motor.mph, kph := r.motor.kph)
    decreases |parts|
  {
    if parts == [] then RateUpdate(m, true)
    else
      var part := parts[0];
      if Contains(part, "RPM:") then
        match RateOf(part)
        case None => RateUpdate(m, false)
        case Some(v) => ApplyRates(m.(rpm := v), parts[1..])
      else if Contains(part, "MPH:") then
        match RateOf(part)
        case None => RateUpdate(m, false)
        case Some(v) => ApplyRates(m.(mph := v), parts[1..])
      else if Contains(part, "KPH:") then
        match RateOf(part)
        case None => RateUpdate(m, false)
        case Some(v) => ApplyRates(m.(kph := v), parts[1..])
      else
        ApplyRates(m, parts[1..])
  }

  function Marker(side: Side): string {
    if side == Left then "Left - " else "Right - "
  }

  /** `data.split('<Side> - ')[1].split()` and the loop over it. The index
      raises when the line holds `<Side> -` but not `<Side> - `. */
  function ApplySide(ms: Motors, side: Side, data: string): Applied {
    var pieces := Split(data, Marker(side));
    if |pieces| < 2 then Applied(ms, false)
    else
      var u := ApplyRates(ms.Get(side), SplitWhitespace(pieces[1]));
      Applied(ms.With(side, u.motor), u.ok)
  }

  /** `STATUS:<motor>:<direction>:<speed>`, split on `:`. */
  function ApplyStatus(ms: Motors, parts: seq<string>): Applied {
    if |parts| < 4 then Applied(ms, true)
    else
      var side := if parts[1] == "ML" then Left else Right;
      var m := ms.Get(side).(direction := parts[2]);
      match ParseInt(parts[3])
      case None => Applied(ms.With(side, m), false)
      case Some(v) => Applied(ms.With(side, m.(speed := v)), true)
  }

  /** `PULSES:<left>:<right>`, split on `:`. */
  function ApplyPulses(ms: Motors, parts: seq<string>): Applied {
    if |parts| < 3 then Applied(ms, true)
    else
      match ParseInt(parts[1])
      case None => Applied(ms, false)
      case Some(l) =>
        var afterLeft := ms.(left := ms.left.(pulses := l));
        match ParseInt(parts[2])
        case None => Applied(afterLeft, false)
        case Some(r) => Applied(afterLeft.(right := afterLeft.right.(pulses := r)), true)
  }

  /** The motor-record part of `_process_data`. */
  function ApplyLine(ms: Motors, data: string): Applied {
    if StartsWith(data, "Left - ") || StartsWith(data, "Right - ") then
      var afterLeft := if Contains(data, "Left -") then ApplySide(ms, Left, data) else Applied(ms, true);
      if !afterLeft.ok then afterLeft
      else if Contains(data, "Right -") then ApplySide(afterLeft.motors, Right, data)
      else afterLeft
    else if StartsWith(data, "STATUS:") then ApplyStatus(ms, Split(data, ":"))
    else if StartsWith(data, "PULSES:") then ApplyPulses(ms, Split(data, ":"))
    else Applied(ms, true)  // `ACK:`, `DIAG:` and unrecognised lines
  }

  // ---------------------------------------------------------------------
  // The imperative decoder

  /** The rate-token loop, run over one side's record. */
  method UpdateRates(m: Motor, parts: seq<string>) returns (m': Motor, ok: bool)
    ensures RateUpdate(m', ok) == ApplyRates(m, parts)
  {
    m' := m;
    ok := true;
    var i := 0;
    while i < |parts| && ok
      invariant 0 <= i <= |parts|
      invariant ok ==> ApplyRates(m', parts[i..]) == ApplyRates(m, parts)
      invariant !ok ==> RateUpdate(m', false) == ApplyRates(m, parts)
    {
      var part := parts[i];
      assert parts[i..][0] == part && parts[i..][1..] == parts[i + 1..];
      if Contains(part, "RPM:") {
        var value := RateOf(part);
        ok := value.Some?;
        if ok { m' := m'.(rpm := value.value); }
      } else if Contains(part, "MPH:") {
        var value := RateOf(part);
        ok := value.Some?;
        if ok { m' := m'.(mph := value.value); }
      } else if Contains(part, "KPH:") {
        var value := RateOf(part);
        ok := value.Some?;
        if ok { m' := m'.(kph := value.value); }
      }
      i := i + 1;
    }
  }

  /** One side of a rates line: `data.split('<Side> - ')[1].split()` and the
      loop over it; `raised` when the index or a conversion fails. */
  method DecodeSide(ms: Motors, side: Side, data: string) returns (ms': Motors, raised: bool)
    ensures Applied(ms', !raised) == ApplySide(ms, side, data)
  {
    ms' := ms;
    var pieces := Split(data, Marker(side));
    if |pieces| < 2 {
      raised := true;
    } else {
      var m, ok := UpdateRates(ms.Get(side), SplitWhitespace(pieces[1]));
      ms' := ms.With(side, m);
      raised := !ok;
    }
  }

  /** The `if`/`elif` chain of `_process_data` that updates the records in
      place; `raised` when a conversion raised part way. */
  method DecodeLine(ms: Motors, data: string) returns (ms': Motors, raised: bool)
    ensures Applied(ms', !raised) == ApplyLine(ms, data)
  {
    ms' := ms;
    raised := false;
    if StartsWith(data, "Left - ") || StartsWith(data, "Right - ") {
      if Contains(data, "Left -") {
        ms', raised := DecodeSide(ms', Left, data);
      }
      if !raised && Contains(data, "Right -") {
        ms', raised := DecodeSide(ms', Right, data);
      }
    } else if StartsWith(data, "STATUS:") {
      var parts := Split(data, ":");
      if |parts| >= 4 {
        var side := if parts[1] == "ML" then Left else Right;
        ms' := ms'.With(side, ms'.Get(side).(direction := parts[2]));
        var speed := ParseInt(parts[3]);
        if speed.None? {
          raised := true;
        } else {
          ms' := ms'.With(side, ms'.Get(side).(speed := speed.value));
        }
      }
    } else if StartsWith(data, "PULSES:") {
      var parts := Split(data, ":");
      if |parts| >= 3 {
        var left := ParseInt(parts[1]);
        if left.None? {
          raised := true;
        } else {
          ms' := ms'.(left := ms'.left.(pulses := left.value));
          var right := ParseInt(parts[2]);
          if right.None? {
            raised := true;
          } else {
            ms' := ms'.(right := ms'.right.(pulses := right.value));
          }
        }
      }
    }
    // `ACK:` and `DIAG:` lines, like unrecognised ones, change no record.
  }

  /** `_process_data(data)` on the records `ms` and the history `history`,
      with `now` standing for `datetime.now()`: the records become those
      `ApplyLine` describes and, unless a conversion raised, one row holding
      the updated records is appended to every column and each column is cut
      back to its newest `cap` entries. */
  method ProcessLine(ms: Motors, history: Table, data: string, now: nat, cap: nat)
    returns (ms': Motors, history': Table)
    requires IsTable(history)
    ensures ms' == ApplyLine(ms, data).motors
    ensures history' == if ApplyLine(ms, data).ok then Trimmed(Appended(history, Sample(now, ms')), cap) else history
  {
    var raised;
    ms', raised := DecodeLine(ms, data);
    history' := history;
    if !raised {
      history' := Appended(history', Sample(now, ms'));
      history' := TrimColumns(history', cap);
    }
  }

  /** A batch of lines processed in order, all stamped `now`: the final
      records and the history rows the batch adds. */
  datatype Batch = Batch(motors: Motors, rows: seq<Sample>)

  /** The history row a processed line contributes: one row holding the
      updated records, or none when a conversion raised. */
  function Recorded(a: Applied, now: nat): (r: seq<Sample>)
    ensures |r| <= 1
    ensures r != [] <==> a.ok
  {
    if a.ok then [Sample(now, a.motors)] else []
  }

  function ApplyAll(ms: Motors, lines: seq<string>, now: nat): (b: Batch)
    ensures |b.rows| <= |lines|
    decreases |lines|
  {
    if lines == [] then Batch(ms, [])
    else
      var first := ApplyLine(ms, lines[0]);
      var rest := ApplyAll(first.motors, lines[1..], now);
      Batch(rest.motors, Recorded(first, now) + rest.rows)
  }

  /** Processing a batch and then one more line is processing the longer
      batch: the lines are handled strictly in order. */
  lemma {:induction false} ApplyAllSnoc(ms: Motors, lines: seq<string>, line: string, now: nat)
    ensures var before := ApplyAll(ms, lines, now);
      var last := ApplyLine(before.motors, line);
      ApplyAll(ms, lines + [line], now) == Batch(last.motors, before.rows + Recorded(last, now))
    decreases |lines|
  {
    if lines == [] {
      assert [] + [line] == [line];
    } else {
      var first := ApplyLine(ms, lines[0]);
      assert (lines + [line])[0] == lines[0];
      assert (lines + [line])[1..] == lines[1..] + [line];
      ApplyAllSnoc(first.motors, lines[1..], line, now);
    }
  }

  // ---------------------------------------------------------------------
  // What a line does to the records

  /** Lines opening with different characters take different branches. */
  lemma PrefixesExclude(data: string, p: string, q: string)
    requires p != [] && q != [] && p[0] != q[0] && StartsWith(data, p)
    ensures !StartsWith(data, q)
  {
    assert data[0] == p[0];
  }

  /** A `STATUS:` line with at least four `:` fields writes field 2, verbatim,
      to the direction of the left motor when field 1 is `ML` and of the right
      motor for any other code, then `int(field 3)` to its speed. When that
      conversion raises, the direction stays written, the speed is kept and
      no history row follows. The other motor is untouched either way. */
  lemma StatusLine(ms: Motors, data: string)
    requires StartsWith(data, "STATUS:") && |Split(data, ":")| >= 4
    ensures var parts := Split(data, ":");
      var side := if parts[1] == "ML" then Left else Right;
      var speed := ParseInt(parts[3]);
      var r := ApplyLine(ms, data);
      && r.motors.Get(side.Other()) == ms.Get(side.Other())
      && (r.ok <==> speed.Some?)
      && r.motors.Get(side) == ms.Get(side).(direction := parts[2],
                                             speed := if speed.Some? then speed.value else ms.Get(side).speed)
  {
    PrefixesExclude(data, "STATUS:", "Left - ");
    PrefixesExclude(data, "STATUS:", "Right - ");
  }

  /** A `PULSES:` line with at least three `:` fields overwrites (never adds
      to) the left count with `int(field 1)` and then the right count with
      `int(field 2)`. A failed first conversion changes nothing; a failed
      second one leaves the left count written. Either failure skips the
      history row. */
  lemma PulsesLine(ms: Motors, data: string)
    requires StartsWith(data, "PULSES:") && |Split(data, ":")| >= 3
    ensures var parts := Split(data, ":");
      var l := ParseInt(parts[1]);
      var rt := ParseInt(parts[2]);
      var r := ApplyLine(ms, data);
      && (r.ok <==> l.Some? && rt.Some?)
      && r.motors.left == (if l.Some? then ms.left.(pulses := l.value) else ms.left)
      && r.motors.right == (if l.Some? && rt.Some? then ms.right.(pulses := rt.value) else ms.right)
  {
    PrefixesExclude(data, "PULSES:", "Left - ");
    PrefixesExclude(data, "PULSES:", "Right - ");
    PrefixesExclude(data, "PULSES:", "STATUS:");
  }

  /** `STATUS` lines with fewer than four fields, `PULSES` lines with fewer
      than three, `ACK:` and `DIAG:` lines and unrecognised lines change no
      record and still reach the history update. */
  lemma InertLine(ms: Motors, data: string)
    requires
      || (StartsWith(data, "STATUS:") && |Split(data, ":")| < 4)
      || (StartsWith(data, "PULSES:") && |Split(data, ":")| < 3)
      || StartsWith(data, "ACK:")
      || StartsWith(data, "DIAG:")
      || !(|| StartsWith(data, "Left - ") || StartsWith(data, "Right - ")
           || StartsWith(data, "STATUS:") || StartsWith(data, "PULSES:"))
    ensures ApplyLine(ms, data) == Applied(ms, true)
  {
    if StartsWith(data, "STATUS:") {
      PrefixesExclude(data, "STATUS:", "Left - ");
      PrefixesExclude(data, "STATUS:", "Right - ");
    } else if StartsWith(data, "PULSES:") {
      PrefixesExclude(data, "PULSES:", "Left - ");
      PrefixesExclude(data, "PULSES:", "Right - ");
    } else if StartsWith(data, "ACK:") {
      PrefixesExclude(data, "ACK:", "Left - ");
      PrefixesExclude(data, "ACK:", "Right - ");
      PrefixesExclude(data, "ACK:", "STATUS:");
      PrefixesExclude(data, "ACK:", "PULSES:");
    } else if StartsWith(data, "DIAG:") {
      PrefixesExclude(data, "DIAG:", "Left - ");
      PrefixesExclude(data, "DIAG:", "Right - ");
      PrefixesExclude(data, "DIAG:", "STATUS:");
      PrefixesExclude(data, "DIAG:", "PULSES:");
    }
  }

  /** A rates line (`Left - ...` or `Right - ...`) changes only rates: the
      speed, target, direction and pulse count of both motors stay as they
      were, whether or not a conversion raised. */
  lemma RatesLineKeepsCounts(ms: Motors, data: string)
    requires StartsWith(data, "Left - ") || StartsWith(data, "Right - ")
    ensures var r := ApplyLine(ms, data).motors;
      && r.left == ms.left.(rpm := r.left.rpm, mph := r.left.mph, kph := r.left.kph)
      && r.right == ms.right.(rpm := r.right.rpm, mph := r.right.mph, kph := r.right.kph)
  {
  }

  /** A float literal holds no `:`, no whitespace and none of the letters the
      line markers are told apart by. */
  lemma FloatTokenFacts(a: string)
    requires IsFloatLiteral(a)
    ensures ':' !in a && 'L' !in a && 'R' !in a && 'M' !in a && 'i' !in a
    ensures forall i :: 0 <= i < |a| ==> !IsSpace(a[i])
  {
    forall i | 0 <= i < |a| ensures a[i] !in ":LRMi" && !IsSpace(a[i]) {
      FloatLiteralAt(a, i);
    }
  }

  lemma RateToken(key: string, a: string)
    requires ':' !in key && IsFloatLiteral(a)
    ensures RateOf(key + ":" + a) == Some(Reading(a))
  {
    FloatTokenFacts(a);
    SplitJoin([key, a], ':');
    assert Join([key, a], ':') == key + ":" + a;
  }

  lemma RpmStep(m: Motor, a: string, rest: seq<string>)
    requires IsFloatLiteral(a)
    ensures ApplyRates(m, ["RPM:" + a] + rest) == ApplyRates(m.(rpm := Reading(a)), rest)
  {
    ContainsOfPrefix("RPM:" + a, "RPM:");
    RateToken("RPM", a);
    assert "RPM" + ":" + a == "RPM:" + a;
    assert (["RPM:" + a] + rest)[1..] == rest;
  }

  lemma MphStep(m: Motor, b: string, rest: seq<string>)
    requires IsFloatLiteral(b)
    ensures ApplyRates(m, ["MPH:" + b] + rest) == ApplyRates(m.(mph := Reading(b)), rest)
  {
    FloatTokenFacts(b);
    NotContainsByChar("MPH:" + b, "RPM:", 'R');
    ContainsOfPrefix("MPH:" + b, "MPH:");
    RateToken("MPH", b);
    assert "MPH" + ":" + b == "MPH:" + b;
    assert (["MPH:" + b] + rest)[1..] == rest;
  }

  lemma KphStep(m: Motor, c: string, rest: seq<string>)
    requires IsFloatLiteral(c)
    ensures ApplyRates(m, ["KPH:" + c] + rest) == ApplyRates(m.(kph := Reading(c)), rest)
  {
    FloatTokenFacts(c);
    NotContainsByChar("KPH:" + c, "RPM:", 'R');
    NotContainsByChar("KPH:" + c, "MPH:", 'M');
    ContainsOfPrefix("KPH:" + c, "KPH:");
    RateToken("KPH", c);
    assert "KPH" + ":" + c == "KPH:" + c;
    assert (["KPH:" + c] + rest)[1..] == rest;
  }

  /** The three tokens `RPM:<a> MPH:<b> KPH:<c>` set the three rates. */
  lemma RateTokens(m: Motor, a: string, b: string, c: string)
    requires IsFloatLiteral(a) && IsFloatLiteral(b) && IsFloatLiteral(c)
    ensures ApplyRates(m, ["RPM:" + a, "MPH:" + b, "KPH:" + c])
         == RateUpdate(m.(rpm := Reading(a), mph := Reading(b), kph := Reading(c)), true)
  {
    var m1 := m.(rpm := Reading(a));
    var m2 := m1.(mph := Reading(b));
    RpmStep(m, a, ["MPH:" + b, "KPH:" + c]);
    assert ["RPM:" + a, "MPH:" + b, "KPH:" + c] == ["RPM:" + a] + ["MPH:" + b, "KPH:" + c];
    MphStep(m1, b, ["KPH:" + c]);
    assert ["MPH:" + b, "KPH:" + c] == ["MPH:" + b] + ["KPH:" + c];
    KphStep(m2, c, []);
    assert ["KPH:" + c] == ["KPH:" + c] + [];
  }

  lemma TokenIsWord(key: string, a: string)
    requires IsWord(key) && IsFloatLiteral(a)
    ensures IsWord(key + a)
  {
    FloatTokenFacts(a);
    var w := key + a;
    forall i | 0 <= i < |w| ensures !IsSpace(w[i]) {
      if i >= |key| { assert w[i] == a[i - |key|]; }
    }
  }

  /** The body of a rates line as the simulator prints it:
      `RPM:<a> MPH:<b> KPH:<c>`. */
  function RatesText(a: string, b: string, c: string): string {
    ("RPM:" + a) + " " + ("MPH:" + b) + " " + ("KPH:" + c)
  }

  /** A rates body holds neither `L` nor `i`, the letters that tell the two
      line markers apart from it. */
  lemma RatesTextLetters(a: string, b: string, c: string)
    requires IsFloatLiteral(a) && IsFloatLiteral(b) && IsFloatLiteral(c)
    ensures 'L' !in RatesText(a, b, c) && 'i' !in RatesText(a, b, c)
  {
    FloatTokenFacts(a);
    FloatTokenFacts(b);
    FloatTokenFacts(c);
  }

  /** `<Side> - <body>`, with neither marker's telltale letter in the body,
      splits on its own marker into `""` and the body, and holds the other
      side's marker nowhere. */
  lemma MarkerLine(side: Side, body: string)
    requires 'L' !in body && 'i' !in body
    ensures Split(Marker(side) + body, Marker(side)) == ["", body]
    ensures StartsWith(Marker(side) + body, Marker(side))
    ensures Contains(Marker(side) + body, if side == Left then "Left -" else "Right -")
    ensures !Contains(Marker(side) + body, if side == Left then "Right -" else "Left -")
  {
    var data := Marker(side) + body;
    if side == Left {
      NotContainsByChar(body, "Left - ", 'L');
      assert 'i' !in data;
      NotContainsByChar(data, "Right -", 'i');
      assert StartsWith(data, "Left -");
      ContainsOfPrefix(data, "Left -");
    } else {
      NotContainsByChar(body, "Right - ", 'i');
      assert 'L' !in data;
      NotContainsByChar(data, "Left -", 'L');
      assert StartsWith(data, "Right -");
      ContainsOfPrefix(data, "Right -");
    }
    SplitAfterMarker(Marker(side), body);
  }

  lemma ThreeWords(x: string, y: string, z: string)
    requires IsWord(x) && IsWord(y) && IsWord(z)
    ensures SplitWhitespace(x + " " + y + " " + z) == [x, y, z]
  {
    var yz := y + " " + z;
    SplitWhitespaceCons(y, z);
    SplitWhitespaceWord(z);
    assert SplitWhitespace(yz) == [y, z];
    SplitWhitespaceCons(x, yz);
    AppendAssoc(x + " " + y, " ", z);
    AppendAssoc(x + " ", y, " " + z);
    AppendAssoc(y, " ", z);
  }

  lemma RatesTextWords(a: string, b: string, c: string)
    requires IsFloatLiteral(a) && IsFloatLiteral(b) && IsFloatLiteral(c)
    ensures SplitWhitespace(RatesText(a, b, c)) == ["RPM:" + a, "MPH:" + b, "KPH:" + c]
  {
    TokenIsWord("RPM:", a);
    TokenIsWord("MPH:", b);
    TokenIsWord("KPH:", c);
    ThreeWords("RPM:" + a, "MPH:" + b, "KPH:" + c);
  }

  /** A well-formed rates line `<Side> - RPM:<a> MPH:<b> KPH:<c>` (the form
      the simulator emits) writes its three readings to
      that side's rpm, mph and kph, leaves everything else as it was, and
      reaches the history update. */
  lemma RatesLine(ms: Motors, side: Side, a: string, b: string, c: string)
    requires IsFloatLiteral(a) && IsFloatLiteral(b) && IsFloatLiteral(c)
    ensures ApplyLine(ms, Marker(side) + RatesText(a, b, c))
         == Applied(ms.With(side, ms.Get(side).(rpm := Reading(a), mph := Reading(b), kph := Reading(c))), true)
  {
    var body := RatesText(a, b, c);
    RatesTextLetters(a, b, c);
    MarkerLine(side, body);
    RatesTextWords(a, b, c);
    RateTokens(ms.Get(side), a, b, c);
  }

  lemma JoinStartsWith(fields: seq<string>, c: char)
    requires |fields| >= 2
    ensures StartsWith(Join(fields, c), fields[0] + [c])
  {
    assert Join(fields, c) == fields[0] + [c] + Join(fields[1..], c);
  }

  /** The line the device prints for a motor's status,
      `STATUS:<code>:<direction>:<speed>[:<more>...]`, sets the direction
      and speed of the motor its code names. */
  lemma StatusRoundTrip(ms: Motors, code: string, direction: string, speed: int, more: seq<string>)
    requires ':' !in code && ':' !in direction
    requires forall k :: 0 <= k < |more| ==> ':' !in more[k]
    ensures var side := if code == "ML" then Left else Right;
      ApplyLine(ms, Join(["STATUS", code, direction, IntToString(speed)] + more, ':'))
        == Applied(ms.With(side, ms.Get(side).(direction := direction, speed := speed)), true)
  {
    var fields := ["STATUS", code, direction, IntToString(speed)] + more;
    var data := Join(fields, ':');
    StatusFields(code, direction, speed, more);
    StatusLine(ms, data);
    ParseIntToString(speed);
  }

  /** The fields of a status line read back from its text. */
  lemma StatusFields(code: string, direction: string, speed: int, more: seq<string>)
    requires ':' !in code && ':' !in direction
    requires forall k :: 0 <= k < |more| ==> ':' !in more[k]
    ensures var fields := ["STATUS", code, direction, IntToString(speed)] + more;
      var data := Join(fields, ':');
      && StartsWith(data, "STATUS:")
      && |Split(data, ":")| >= 4
      && Split(data, ":")[1] == code
      && Split(data, ":")[2] == direction
      && Split(data, ":")[3] == IntToString(speed)
  {
    var fields := ["STATUS", code, direction, IntToString(speed)] + more;
    StatusFieldsNoColon(code, direction, speed, more);
    SplitJoin(fields, ':');
    JoinStartsWith(fields, ':');
    assert "STATUS" + [':'] == "STATUS:";
  }

  lemma StatusFieldsNoColon(code: string, direction: string, speed: int, more: seq<string>)
    requires ':' !in code && ':' !in direction
    requires forall k :: 0 <= k < |more| ==> ':' !in more[k]
    ensures var fields := ["STATUS", code, direction, IntToString(speed)] + more;
      forall k :: 0 <= k < |fields| ==> ':' !in fields[k]
  {
    var fields := ["STATUS", code, direction, IntToString(speed)] + more;
    NoColonInInt(speed);
    forall k | 0 <= k < |fields| ensures ':' !in fields[k] {
      if k >= 4 { assert fields[k] == more[k - 4]; }
    }
  }

  /** The line `PULSES:<left>:<right>` overwrites both pulse counts. */
  lemma PulsesRoundTrip(ms: Motors, left: int, right: int)
    ensures ApplyLine(ms, Join(["PULSES", IntToString(left), IntToString(right)], ':'))
         == Applied(Motors(ms.left.(pulses := left), ms.right.(pulses := right)), true)
  {
    var fields := ["PULSES", IntToString(left), IntToString(right)];
    NoColonInInt(left);
    NoColonInInt(right);
    SplitJoin(fields, ':');
    var data := Join(fields, ':');
    JoinStartsWith(fields, ':');
    assert "PULSES" + [':'] == "PULSES:";
    PulsesLine(ms, data);
    ParseIntToString(left);
    ParseIntToString(right);
  }

  /** After `STATUS:ML:FORWARD:<l>` and then `STATUS:MR:REVERSE:<r>`, the left
      motor reads forward at `l` and the right one reverse at `r`. */
  lemma StatusPair(ms: Motors, l: int, r: int)
    ensures var first := ApplyLine(ms, Join(["STATUS", "ML", "FORWARD", IntToString(l)], ':'));
      var second := ApplyLine(first.motors, Join(["STATUS", "MR", "REVERSE", IntToString(r)], ':'));
      && first.ok && second.ok
      && second.motors.left.direction == "FORWARD" && second.motors.left.speed == l
      && second.motors.right.direction == "REVERSE" && second.motors.right.speed == r
  {
    StatusRoundTrip(ms, "ML", "FORWARD", l, []);
    assert ["STATUS", "ML", "FORWARD", IntToString(l)] + [] == ["STATUS", "ML", "FORWARD", IntToString(l)];
    var first := ApplyLine(ms, Join(["STATUS", "ML", "FORWARD", IntToString(l)], ':'));
    StatusRoundTrip(first.motors, "MR", "REVERSE", r, []);
    assert ["STATUS", "MR", "REVERSE", IntToString(r)] + [] == ["STATUS", "MR", "REVERSE", IntToString(r)];
  }
}
