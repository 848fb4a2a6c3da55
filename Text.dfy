/** The Python `str` operations the link code relies on: `startswith`, the
    `in` operator on strings, `split(sep)`, `split()`, `strip()`, `upper()`,
    `int()`, `float()` acceptance and `str()` of an integer. */
module Text {
  import opened Wrappers

  /** `s.startswith(prefix)` */
  predicate StartsWith(s: string, prefix: string) {
    prefix <= s
  }

  /** `sub` occurs in `s` at index `i`. */
  ghost predicate OccursAt(s: string, sub: string, i: int) {
    0 <= i && i + |sub| <= |s| && s[i..i + |sub|] == sub
  }

  lemma OccursShift(s: string, sub: string, j: int)
    requires s != [] && 1 <= j
    ensures OccursAt(s, sub, j) <==> OccursAt(s[1..], sub, j - 1)
  {
    if j + |sub| <= |s| {
      var here, there := s[j..j + |sub|], s[1..][j - 1..j - 1 + |sub|];
      forall k | 0 <= k < |sub| ensures here[k] == there[k] {
        assert here[k] == s[j + k] && there[k] == s[1..][j - 1 + k];
      }
      assert here == there;
    }
  }

  /** `s.find(sub)` when it is not -1: the first index at which `sub` occurs. */
  function IndexOf(s: string, sub: string): (r: Option<nat>)
    ensures r.Some? ==> OccursAt(s, sub, r.value)
    ensures r.Some? ==> forall j :: 0 <= j < r.value ==> !OccursAt(s, sub, j)
    ensures r.None? ==> forall j :: 0 <= j <= |s| ==> !OccursAt(s, sub, j)
    decreases |s|
  {
    assert sub <= s <==> OccursAt(s, sub, 0) by {
      if |sub| <= |s| { assert s[0..|sub|] == s[..|sub|]; }
    }
    if sub <= s then Some(0)
    else if s == [] then None
    else
      assert forall j :: 1 <= j ==> (OccursAt(s, sub, j) <==> OccursAt(s[1..], sub, j - 1)) by {
        forall j | 1 <= j ensures OccursAt(s, sub, j) <==> OccursAt(s[1..], sub, j - 1) {
          OccursShift(s, sub, j);
        }
      }
      match IndexOf(s[1..], sub)
      case None => None
      case Some(i) => Some(i + 1)
  }

  /** `sub in s` */
  predicate Contains(s: string, sub: string) {
    IndexOf(s, sub).Some?
  }

  /** `s.split(sep)` for a non-empty separator: the pieces between the
      non-overlapping occurrences of `sep`, scanned from the left. */
  function Split(s: string, sep: string): (r: seq<string>)
    requires sep != []
    ensures |r| >= 1
    decreases |s|
  {
    match IndexOf(s, sep)
    case None => [s]
    case Some(i) => [s[..i]] + Split(s[i + |sep|..], sep)
  }

  /** `sep.join(fields)` for a one-character separator. */
  function Join(fields: seq<string>, sep: char): string
    requires fields != []
    decreases |fields|
  {
    if |fields| == 1 then fields[0] else fields[0] + [sep] + Join(fields[1..], sep)
  }

  lemma ContainsOfPrefix(s: string, prefix: string)
    requires StartsWith(s, prefix)
    ensures Contains(s, prefix)
  {
  }

  /** A string lacking one of the characters of `sub` cannot contain `sub`. */
  lemma NotContainsByChar(s: string, sub: string, c: char)
    requires c in sub && c !in s
    ensures !Contains(s, sub)
  {
  }

  lemma SingleCharOccurs(s: string, c: char, j: int)
    ensures OccursAt(s, [c], j) <==> 0 <= j < |s| && s[j] == c
  {
    if 0 <= j < |s| {
      assert s[j..j + 1] == [s[j]];
    }
  }

  lemma IndexOfSeparator(f: string, c: char, rest: string)
    requires c !in f
    ensures IndexOf(f + [c] + rest, [c]) == Some(|f|)
  {
    var s := f + [c] + rest;
    SingleCharOccurs(s, c, |f|);
    forall j | 0 <= j < |f| ensures !OccursAt(s, [c], j) {
      SingleCharOccurs(s, c, j);
    }
  }

  lemma IndexOfAbsent(s: string, c: char)
    requires c !in s
    ensures IndexOf(s, [c]) == None
  {
    if IndexOf(s, [c]).Some? {
      SingleCharOccurs(s, c, IndexOf(s, [c]).value);
    }
  }

  /** Splitting on a character that no field holds gives the fields back. */
  lemma {:induction false} SplitJoin(fields: seq<string>, c: char)
    requires fields != []
    requires forall k :: 0 <= k < |fields| ==> c !in fields[k]
    ensures Split(Join(fields, c), [c]) == fields
    decreases |fields|
  {
    if |fields| == 1 {
      IndexOfAbsent(fields[0], c);
    } else {
      var rest := Join(fields[1..], c);
      IndexOfSeparator(fields[0], c, rest);
      var s := fields[0] + [c] + rest;
      assert s[..|fields[0]|] == fields[0];
      assert s[|fields[0]| + 1..] == rest;
      SplitJoin(fields[1..], c);
      assert fields == [fields[0]] + fields[1..];
    }
  }

  /** A line that opens with `marker` and holds it nowhere else splits into
      the empty piece and the rest of the line. */
  lemma SplitAfterMarker(marker: string, body: string)
    requires marker != []
    requires !Contains(body, marker)
    ensures Split(marker + body, marker) == ["", body]
  {
    var s := marker + body;
    assert marker <= s;
    assert IndexOf(s, marker) == Some(0);
    assert s[..0] == "";
    assert s[|marker|..] == body;
  }

  // ---------------------------------------------------------------------
  // Whitespace, `split()` and `strip()`

  /** The characters Python's `str.isspace` accepts. */
  predicate IsSpace(c: char) {
    ('\t' <= c <= '\r') || ('\U{1C}' <= c <= ' ') || c == '\U{85}' || c == '\U{A0}'
    || c == '\U{1680}' || ('\U{2000}' <= c <= '\U{200A}') || c == '\U{2028}' || c == '\U{2029}'
    || c == '\U{202F}' || c == '\U{205F}' || c == '\U{3000}'
  }

  /** A maximal run of non-whitespace characters, as `split()` yields them. */
  predicate IsWord(w: string) {
    w != [] && forall i :: 0 <= i < |w| ==> !IsSpace(w[i])
  }

  function TokenLength(s: string): (n: nat)
    ensures n <= |s|
    ensures forall i :: 0 <= i < n ==> !IsSpace(s[i])
    ensures n < |s| ==> IsSpace(s[n])
    decreases |s|
  {
    if s == [] || IsSpace(s[0]) then 0 else 1 + TokenLength(s[1..])
  }

  /** `s.split()`: the words of `s`, whitespace runs discarded. */
  function SplitWhitespace(s: string): (r: seq<string>)
    ensures forall k :: 0 <= k < |r| ==> IsWord(r[k])
    decreases |s|
  {
    if s == [] then []
    else if IsSpace(s[0]) then SplitWhitespace(s[1..])
    else
      var n := TokenLength(s);
      [s[..n]] + SplitWhitespace(s[n..])
  }

  lemma SplitWhitespaceWord(w: string)
    requires IsWord(w)
    ensures SplitWhitespace(w) == [w]
  {
    assert TokenLength(w) == |w|;
    assert w[..|w|] == w;
    assert w[|w|..] == [];
  }

  lemma SplitWhitespaceCons(w: string, rest: string)
    requires IsWord(w)
    ensures SplitWhitespace(w + " " + rest) == [w] + SplitWhitespace(rest)
  {
    SplitWhitespaceSeparated(w, ' ', rest);
    assert w + " " + rest == w + [' '] + rest;
  }

  /** A leading whitespace character of any kind is dropped. */
  lemma {:induction false} SplitWhitespaceSkip(c: char, s: string)
    requires IsSpace(c)
    ensures SplitWhitespace([c] + s) == SplitWhitespace(s)
  {
    assert ([c] + s)[0] == c && ([c] + s)[1..] == s;
  }

  /** A word ends at the first whitespace character of any kind, which is
      dropped with it. */
  lemma {:induction false} SplitWhitespaceSeparated(w: string, c: char, rest: string)
    requires IsWord(w) && IsSpace(c)
    ensures SplitWhitespace(w + [c] + rest) == [w] + SplitWhitespace(rest)
  {
    var s := w + [c] + rest;
    assert TokenLength(s) == |w| by {
      TokenLengthPrefix(w, [c] + rest);
      assert s == w + ([c] + rest);
    }
    assert s[..|w|] == w;
    assert s[|w|..] == [c] + rest;
    SplitWhitespaceSkip(c, rest);
  }

  /** The token ends where the word ends when whitespace follows it. */
  lemma {:induction false} TokenLengthPrefix(w: string, t: string)
    requires IsWord(w) && t != [] && IsSpace(t[0])
    ensures TokenLength(w + t) == |w|
    decreases |w|
  {
    var s := w + t;
    assert s[0] == w[0] && !IsSpace(s[0]);
    if |w| == 1 {
      assert s[1..] == t;
    } else {
      assert s[1..] == w[1..] + t;
      assert IsWord(w[1..]) by {
        forall i | 0 <= i < |w[1..]| ensures !IsSpace(w[1..][i]) {
          assert w[1..][i] == w[i + 1];
        }
      }
      TokenLengthPrefix(w[1..], t);
    }
  }

  /** `split()` yields nothing exactly when the string is all whitespace. */
  lemma {:induction false} SplitWhitespaceBlank(s: string)
    ensures SplitWhitespace(s) == [] <==> forall i :: 0 <= i < |s| ==> IsSpace(s[i])
    decreases |s|
  {
    if s != [] {
      if IsSpace(s[0]) {
        SplitWhitespaceBlank(s[1..]);
        assert (forall i :: 0 <= i < |s| ==> IsSpace(s[i]))
           <==> (forall i :: 0 <= i < |s[1..]| ==> IsSpace(s[1..][i])) by {
          forall i | 0 <= i < |s[1..]| ensures s[1..][i] == s[i + 1] {}
        }
      }
    }
  }

  function StripLeft(s: string): (r: string)
    ensures |r| <= |s|
    ensures r == s[|s| - |r|..]
    ensures r == [] || !IsSpace(r[0])
    ensures forall i :: 0 <= i < |s| - |r| ==> IsSpace(s[i])
    decreases |s|
  {
    if s != [] && IsSpace(s[0]) then StripLeft(s[1..]) else s
  }

  function StripRight(s: string): (r: string)
    ensures |r| <= |s|
    ensures r == s[..|r|]
    ensures r == [] || !IsSpace(r[|r| - 1])
    ensures forall i :: |r| <= i < |s| ==> IsSpace(s[i])
    decreases |s|
  {
    if s != [] && IsSpace(s[|s| - 1]) then StripRight(s[..|s| - 1]) else s
  }

  /** `s.strip()` */
  function Strip(s: string): string {
    StripRight(StripLeft(s))
  }

  // ---------------------------------------------------------------------
  // Case

  function UpperChar(c: char): char {
    if 'a' <= c <= 'z' then (c as int - 32) as char else c
  }

  /** `s.upper()` on ASCII letters. */
  function Upper(s: string): string {
    seq(|s|, i requires 0 <= i < |s| => UpperChar(s[i]))
  }

  // ---------------------------------------------------------------------
  // Integers

  predicate IsDigit(c: char) {
    '0' <= c <= '9'
  }

  predicate AllDigits(s: string) {
    forall i :: 0 <= i < |s| ==> IsDigit(s[i])
  }

  function DigitsValue(s: string): nat
    requires AllDigits(s)
    decreases |s|
  {
    if s == [] then 0 else DigitsValue(s[..|s| - 1]) * 10 + (s[|s| - 1] as int - '0' as int)
  }

  /** `int(s)`: an optional sign followed by decimal digits; `None` where
      Python raises `ValueError`. */
  function ParseInt(s: string): Option<int> {
    if |s| >= 2 && (s[0] == '-' || s[0] == '+') && AllDigits(s[1..]) then
      var v: int := DigitsValue(s[1..]);
      Some(if s[0] == '-' then -v else v)
    else if s != [] && AllDigits(s) then
      Some(DigitsValue(s))
    else
      None
  }

  function NatToString(n: nat): (r: string)
    ensures r != [] && AllDigits(r)
    decreases n
  {
    if n < 10 then [('0' as int + n) as char]
    else NatToString(n / 10) + [('0' as int + n % 10) as char]
  }

  /** `str(n)` for an integer `n`. */
  function IntToString(n: int): string {
    if n < 0 then "-" + NatToString(-n) else NatToString(n)
  }

  lemma {:induction false} NatToStringValue(n: nat)
    ensures DigitsValue(NatToString(n)) == n
    decreases n
  {
    if n >= 10 {
      NatToStringValue(n / 10);
      var s := NatToString(n);
      assert s[..|s| - 1] == NatToString(n / 10);
    }
  }

  /** `int(str(n)) == n`: the decimal rendering of an integer reads back as it. */
  lemma ParseIntToString(n: int)
    ensures ParseInt(IntToString(n)) == Some(n)
  {
    if n < 0 {
      NatToStringValue(-n);
      assert IntToString(n)[1..] == NatToString(-n);
    } else {
      NatToStringValue(n);
    }
  }

  /** `str(n)` holds only digits and a leading minus sign. */
  lemma IntToStringAt(n: int, i: int)
    requires 0 <= i < |IntToString(n)|
    ensures IsDigit(IntToString(n)[i]) || IntToString(n)[i] == '-'
  {
    if n < 0 && i > 0 {
      assert IntToString(n)[i] == NatToString(-n)[i - 1];
    }
  }

  /** `str(n)` is non-empty and holds no `:`, so it survives as one field
      of a `:`-separated line. */
  lemma NoColonInInt(n: int)
    ensures ':' !in IntToString(n) && IntToString(n) != []
  {
    forall i | 0 <= i < |IntToString(n)| ensures IntToString(n)[i] != ':' {
      IntToStringAt(n, i);
    }
  }

  // ---------------------------------------------------------------------
  // Floating-point literals (values are kept as their text)

  predicate IsDecimal(b: string) {
    && b != []
    && b != "."
    && (forall i :: 0 <= i < |b| ==> IsDigit(b[i]) || b[i] == '.')
    && multiset(b)['.'] <= 1
  }

  /** The strings `float()` is taken to accept: an optional sign, then digits
      with at most one decimal point. */
  predicate IsFloatLiteral(s: string) {
    if s != [] && (s[0] == '+' || s[0] == '-') then IsDecimal(s[1..]) else IsDecimal(s)
  }

  lemma FloatLiteralAt(s: string, i: int)
    requires IsFloatLiteral(s) && 0 <= i < |s|
    ensures IsDigit(s[i]) || s[i] == '.' || s[i] == '+' || s[i] == '-'
  {
    if (s[0] == '+' || s[0] == '-') && i > 0 {
      assert s[i] == s[1..][i - 1];
    }
  }
}
