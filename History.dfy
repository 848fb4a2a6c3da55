/** The controller's `data_history`: nine parallel columns, one entry per
    processed telemetry line, cut back to the newest `max_history` entries. */
module History {
  import opened Records

  datatype Column =
    | Timestamp
    | LeftSpeed | RightSpeed
    | LeftTarget | RightTarget
    | LeftPulses | RightPulses
    | LeftRpm | RightRpm

  /** The keys of `data_history`, in the order the dictionary holds them. */
  const ColumnOrder: seq<Column> :=
    [Timestamp, LeftSpeed, RightSpeed, LeftTarget, RightTarget, LeftPulses, RightPulses, LeftRpm, RightRpm]

  const AllColumns: set<Column> :=
    {Timestamp, LeftSpeed, RightSpeed, LeftTarget, RightTarget, LeftPulses, RightPulses, LeftRpm, RightRpm}

  /** One history entry: a timestamp, an integer field or a rate. */
  datatype Value = Time(t: nat) | Int(n: int) | RateValue(r: Rate)

  /** One row of the history: the time a line was processed and the motor
      records after it was applied. */
  datatype Sample = Sample(timestamp: nat, motors: Motors)

  /** The entry a row contributes to a column. */
  function Field(s: Sample, c: Column): Value {
    match c
    case Timestamp => Time(s.timestamp)
    case LeftSpeed => Int(s.motors.left.speed)
    case RightSpeed => Int(s.motors.right.speed)
    case LeftTarget => Int(s.motors.left.target)
    case RightTarget => Int(s.motors.right.target)
    case LeftPulses => Int(s.motors.left.pulses)
    case RightPulses => Int(s.motors.right.pulses)
    case LeftRpm => RateValue(s.motors.left.rpm)
    case RightRpm => RateValue(s.motors.right.rpm)
  }

  type Table = map<Column, seq<Value>>

  /** The dictionary has exactly the nine keys. */
  predicate IsTable(t: Table) {
    t.Keys == AllColumns
  }

  /** Every column holds `n` entries. */
  predicate Rectangular(t: Table, n: nat) {
    IsTable(t) && forall c :: c in t ==> |t[c]| == n
  }

  const EmptyTable: Table := map c | c in AllColumns :: []

  /** The nine `append` calls of one history update. */
  function Appended(t: Table, s: Sample): Table
    requires IsTable(t)
  {
    map c | c in t :: t[c] + [Field(s, c)]
  }

  /** What trimming keeps of a column: `xs[-cap:]` once `len(xs) > cap`.
      Python's `xs[-0:]` is the whole list, so a capacity of 0 keeps all. */
  function Newest<T>(xs: seq<T>, cap: nat): seq<T> {
    if cap == 0 || |xs| <= cap then xs else xs[|xs| - cap..]
  }

  function Trimmed(t: Table, cap: nat): Table {
    map c | c in t :: Newest(t[c], cap)
  }

  /** Where a column sits in `ColumnOrder`. */
  function Position(c: Column): (i: nat)
    ensures i < |ColumnOrder| && ColumnOrder[i] == c
  {
    match c
    case Timestamp => 0
    case LeftSpeed => 1
    case RightSpeed => 2
    case LeftTarget => 3
    case RightTarget => 4
    case LeftPulses => 5
    case RightPulses => 6
    case LeftRpm => 7
    case RightRpm => 8
  }

  lemma AppendAssoc<T>(a: seq<T>, b: seq<T>, c: seq<T>)
    ensures (a + b) + c == a + (b + c)
  {
  }

  lemma AppendEmpty<T>(s: seq<T>)
    ensures s + [] == s
  {
  }

  lemma TakeSnoc<T>(s: seq<T>, i: nat)
    requires i < |s|
    ensures s[..i + 1] == s[..i] + [s[i]]
  {
  }

  lemma TakeAll<T>(s: seq<T>)
    ensures s[..|s|] == s
  {
  }

  lemma NewestIdempotent<T>(xs: seq<T>, cap: nat)
    ensures Newest(Newest(xs, cap), cap) == Newest(xs, cap)
  {
  }

  /** The table once the trimming loop has handled the first `i` keys. */
  function TrimmedBefore(t: Table, cap: nat, i: nat): Table {
    map c | c in t :: if Position(c) < i then Newest(t[c], cap) else t[c]
  }

  lemma TrimmedBeforeStep(t: Table, cap: nat, i: nat)
    requires i < |ColumnOrder| && ColumnOrder[i] in t
    ensures ColumnOrder[i] in TrimmedBefore(t, cap, i)
    ensures TrimmedBefore(t, cap, i)[ColumnOrder[i]] == t[ColumnOrder[i]]
    ensures TrimmedBefore(t, cap, i + 1)
         == TrimmedBefore(t, cap, i)[ColumnOrder[i] := Newest(t[ColumnOrder[i]], cap)]
  {
    assert Position(ColumnOrder[i]) == i;
  }

  lemma TrimmedBeforeEnds(t: Table, cap: nat)
    ensures TrimmedBefore(t, cap, 0) == t
    ensures TrimmedBefore(t, cap, |ColumnOrder|) == Trimmed(t, cap)
  {
  }

  /** One pass of the loop body is the update of one key to its newest
      `cap` entries. */
  lemma TrimKey(r: Table, key: Column, cap: nat)
    requires key in r
    ensures r[key := Newest(r[key], cap)]
         == if |r[key]| > cap && cap > 0 then r[key := r[key][|r[key]| - cap..]] else r
  {
  }

  /** The trimming loop: each key in turn is cut to its newest `cap` entries
      when it holds more. */
  method TrimColumns(t: Table, cap: nat) returns (r: Table)
    requires IsTable(t)
    ensures r == Trimmed(t, cap)
  {
    TrimmedBeforeEnds(t, cap);
    r := t;
    var i := 0;
    while i < |ColumnOrder|
      invariant 0 <= i <= |ColumnOrder|
      invariant r == TrimmedBefore(t, cap, i)
    {
      var key := ColumnOrder[i];
      TrimLoopStep(t, cap, i, r, key);
      if |r[key]| > cap && cap > 0 {
        r := r[key := r[key][|r[key]| - cap..]];
      }
      i := i + 1;
    }
  }

  /** The loop body, applied to the table after `i` keys, gives the table
      after `i + 1` keys. */
  lemma TrimLoopStep(t: Table, cap: nat, i: nat, r: Table, key: Column)
    requires IsTable(t) && i < |ColumnOrder| && key == ColumnOrder[i]
    requires r == TrimmedBefore(t, cap, i)
    ensures key in r
    ensures |r[key]| > cap && cap > 0 ==>
      r[key := r[key][|r[key]| - cap..]] == TrimmedBefore(t, cap, i + 1)
    ensures !(|r[key]| > cap && cap > 0) ==> r == TrimmedBefore(t, cap, i + 1)
  {
    TrimmedBeforeStep(t, cap, i);
    TrimKey(r, key, cap);
  }

  // ---------------------------------------------------------------------
  // The table as the column view of a sequence of rows

  function ColumnOf(samples: seq<Sample>, c: Column): seq<Value>
    decreases |samples|
  {
    if samples == [] then []
    else ColumnOf(samples[..|samples| - 1], c) + [Field(samples[|samples| - 1], c)]
  }

  /** The history dictionary whose rows are `samples`, oldest first. */
  function Tabulate(samples: seq<Sample>): Table {
    map c | c in AllColumns :: ColumnOf(samples, c)
  }

  lemma TabulateIsTable(samples: seq<Sample>)
    ensures IsTable(Tabulate(samples))
  {
  }

  lemma {:induction false} ColumnOfAt(samples: seq<Sample>, c: Column)
    ensures |ColumnOf(samples, c)| == |samples|
    ensures forall k :: 0 <= k < |samples| ==> ColumnOf(samples, c)[k] == Field(samples[k], c)
    decreases |samples|
  {
    if samples != [] {
      ColumnOfAt(samples[..|samples| - 1], c);
    }
  }

  lemma ColumnOfNewest(samples: seq<Sample>, c: Column, cap: nat)
    ensures ColumnOf(Newest(samples, cap), c) == Newest(ColumnOf(samples, c), cap)
  {
    var kept := Newest(samples, cap);
    ColumnOfAt(samples, c);
    ColumnOfAt(kept, c);
  }

  lemma ColumnOfSnoc(samples: seq<Sample>, s: Sample, c: Column)
    ensures ColumnOf(samples + [s], c) == ColumnOf(samples, c) + [Field(s, c)]
  {
    assert (samples + [s])[..|samples|] == samples;
  }

  lemma NewestSnoc<T>(xs: seq<T>, x: T, cap: nat)
    ensures Newest(Newest(xs, cap) + [x], cap) == Newest(xs + [x], cap)
  {
  }

  lemma AppendTrimColumn(samples: seq<Sample>, s: Sample, cap: nat, c: Column)
    ensures Newest(ColumnOf(Newest(samples, cap), c) + [Field(s, c)], cap)
         == ColumnOf(Newest(samples + [s], cap), c)
  {
    var kept := Newest(samples, cap);
    ColumnOfSnoc(kept, s, c);
    ColumnOfNewest(kept + [s], c, cap);
    NewestSnoc(samples, s, cap);
  }

  /** Appending a row and trimming, applied to the history of the newest
      `cap` rows, gives the history of the newest `cap` rows once the new row
      is added: the table always shows exactly the most recent rows. */
  lemma AppendTrimTabulate(samples: seq<Sample>, s: Sample, cap: nat)
    ensures IsTable(Tabulate(Newest(samples, cap)))
    ensures Trimmed(Appended(Tabulate(Newest(samples, cap)), s), cap) == Tabulate(Newest(samples + [s], cap))
  {
    var before := Tabulate(Newest(samples, cap));
    var lhs := Trimmed(Appended(before, s), cap);
    var rhs := Tabulate(Newest(samples + [s], cap));
    forall c | c in AllColumns ensures lhs[c] == rhs[c] {
      AppendTrimColumn(samples, s, cap, c);
    }
  }

  /** Recording zero or one rows keeps the table equal to the history of
      the newest `cap` rows. */
  lemma RecordRows(samples: seq<Sample>, rows: seq<Sample>, t: Table, t': Table, cap: nat)
    requires t == Tabulate(Newest(samples, cap))
    requires |rows| <= 1
    requires rows == [] ==> t' == t
    requires rows != [] ==> IsTable(t) && t' == Trimmed(Appended(t, rows[0]), cap)
    ensures t' == Tabulate(Newest(samples + rows, cap))
  {
    if rows == [] {
      assert samples + rows == samples;
    } else {
      assert rows == [rows[0]];
      AppendTrimTabulate(samples, rows[0], cap);
    }
  }

  /** The shape of the history of the newest rows: nine equally long
      columns, at most `cap` long, each the projection of the newest rows. */
  lemma TabulateShape(samples: seq<Sample>, cap: nat)
    requires cap > 0
    ensures var n := if |samples| <= cap then |samples| else cap;
      && Rectangular(Tabulate(Newest(samples, cap)), n)
      && n <= cap
      && forall c, k :: c in AllColumns && 0 <= k < n ==>
           Tabulate(Newest(samples, cap))[c][k] == Field(samples[|samples| - n + k], c)
  {
    forall c | c in AllColumns {
      NewestColumnAt(samples, cap, c);
    }
  }

  /** Entry `k` of a column of the newest rows is the field of the `k`-th
      of the last `min(|samples|, cap)` rows. */
  lemma NewestColumnAt(samples: seq<Sample>, cap: nat, c: Column)
    requires cap > 0
    ensures var n := if |samples| <= cap then |samples| else cap;
      && |ColumnOf(Newest(samples, cap), c)| == n
      && forall k :: 0 <= k < n ==> ColumnOf(Newest(samples, cap), c)[k] == Field(samples[|samples| - n + k], c)
  {
    NewestShape(samples, cap);
    ColumnOfAt(Newest(samples, cap), c);
  }

  /** The newest `cap > 0` rows are the last `min(|samples|, cap)` of them. */
  lemma NewestShape<T>(xs: seq<T>, cap: nat)
    requires cap > 0
    ensures var n := if |xs| <= cap then |xs| else cap;
      && |Newest(xs, cap)| == n
      && forall k :: 0 <= k < n ==> Newest(xs, cap)[k] == xs[|xs| - n + k]
  {
  }

  /** One history update on a rectangular table of `n <= cap` rows: every
      column gains the new row's entry at its end and loses its oldest entry
      exactly when it would otherwise exceed `cap`. */
  lemma AppendTrimShape(t: Table, n: nat, s: Sample, cap: nat)
    requires Rectangular(t, n) && 0 < cap && n <= cap
    ensures Rectangular(Trimmed(Appended(t, s), cap), if n < cap then n + 1 else cap)
    ensures forall c :: c in t ==>
      Trimmed(Appended(t, s), cap)[c] == (if n < cap then t[c] else t[c][1..]) + [Field(s, c)]
  {
    forall c | c in t
      ensures Trimmed(Appended(t, s), cap)[c] == (if n < cap then t[c] else t[c][1..]) + [Field(s, c)]
    {
      AppendTrimEntry(t[c], Field(s, c), n, cap);
    }
  }

  /** One column of a full history drops its oldest entry when a row is
      appended; a column below capacity only grows. */
  lemma AppendTrimEntry(col: seq<Value>, v: Value, n: nat, cap: nat)
    requires |col| == n && 0 < cap && n <= cap
    ensures Newest(col + [v], cap) == (if n < cap then col else col[1..]) + [v]
  {
    if n == cap {
      assert (col + [v])[1..] == col[1..] + [v];
    }
  }
}
