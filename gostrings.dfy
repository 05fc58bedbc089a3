/**
 * The few pieces of Go's `strings` and `strconv` packages that the modelled code relies on:
 * `strings.Split` and `strings.SplitN(s, sep, 2)` on a one-character separator,
 * `strings.Join`, `HasSuffix`/`TrimSuffix` on a one-character suffix, `strings.TrimSpace`,
 * `fmt`'s `%d` on a non-negative integer, `strconv.ParseInt(s, 10, 32)` and `filepath.Join`.
 */
module GoStrings {
  import opened Wrappers

  // ---------------------------------------------------------------- Split / Join

  /** strings.Split(s, string(c)): the pieces of `s` between the occurrences of `c`; never empty. */
  function Split(s: string, c: char): (parts: seq<string>)
    ensures |parts| >= 1
    decreases |s|
  {
    if s == [] then [""]
    else
      var rest := Split(s[1..], c);
      if s[0] == c then [""] + rest else [[s[0]] + rest[0]] + rest[1..]
  }

  /** strings.Join(xs, sep) */
  function Join(xs: seq<string>, sep: string): string
    decreases |xs|
  {
    if |xs| == 0 then "" else if |xs| == 1 then xs[0] else xs[0] + sep + Join(xs[1..], sep)
  }

  /** No piece of `xs` contains the separator character `c`. */
  predicate Free(xs: seq<string>, c: char) {
    forall i :: 0 <= i < |xs| ==> c !in xs[i]
  }

  lemma {:induction false} SplitPiecesAreFree(s: string, c: char)
    ensures Free(Split(s, c), c)
    decreases |s|
  {
    if s != [] {
      SplitPiecesAreFree(s[1..], c);
    }
  }

  /** Joining the pieces of a split with the separator gives back the string. */
  lemma {:induction false} JoinSplit(s: string, c: char)
    ensures Join(Split(s, c), [c]) == s
    decreases |s|
  {
    if s != [] {
      var rest := Split(s[1..], c);
      JoinSplit(s[1..], c);
      if s[0] == c {
        assert Split(s, c) == [""] + rest;
        assert Join([""] + rest, [c]) == "" + [c] + Join(rest, [c]);
      } else {
        var parts := Split(s, c);
        assert parts == [[s[0]] + rest[0]] + rest[1..];
        if |rest| == 1 {
          assert Join(parts, [c]) == [s[0]] + rest[0];
        } else {
          assert Join(rest, [c]) == rest[0] + [c] + Join(rest[1..], [c]);
          assert parts[1..] == rest[1..];
          assert Join(parts, [c]) == [s[0]] + rest[0] + [c] + Join(rest[1..], [c]);
        }
      }
    }
  }

  /** Splitting a join of separator-free pieces gives back the pieces. */
  lemma {:induction false} SplitJoin(xs: seq<string>, c: char)
    requires |xs| >= 1 && Free(xs, c)
    ensures Split(Join(xs, [c]), c) == xs
    decreases |xs|
  {
    if |xs| == 1 {
      SplitFree(xs[0], c);
    } else {
      SplitJoin(xs[1..], c);
      SplitAppend(xs[0], Join(xs[1..], [c]), c);
      assert Join(xs, [c]) == xs[0] + [c] + Join(xs[1..], [c]);
      assert [xs[0]] + xs[1..] == xs;
    }
  }

  /** A string without the separator is a single piece. */
  lemma {:induction false} SplitFree(s: string, c: char)
    requires c !in s
    ensures Split(s, c) == [s]
    decreases |s|
  {
    if s != [] {
      SplitFree(s[1..], c);
      assert [s[0]] + s[1..] == s;
    }
  }

  /** Splitting `a + [c] + b` for a separator-free `a` puts `a` first. */
  lemma {:induction false} SplitAppend(a: string, b: string, c: char)
    requires c !in a
    ensures Split(a + [c] + b, c) == [a] + Split(b, c)
    decreases |a|
  {
    if a == [] {
      assert a + [c] + b == [c] + b;
      assert ([c] + b)[1..] == b;
    } else {
      SplitAppend(a[1..], b, c);
      assert (a + [c] + b)[1..] == a[1..] + [c] + b;
      assert [a[0]] + a[1..] == a;
    }
  }

  /** filepath.Join of a directory and a relative name (path cleaning is not modelled). */
  function PathJoin(dir: string, name: string): string {
    dir + "/" + name
  }

  // ---------------------------------------------------------------- SplitN(s, sep, 2)

  /** The index of the first `c` in `s`. */
  function FirstIndex(s: string, c: char): (k: nat)
    requires c in s
    ensures k < |s| && s[k] == c && c !in s[..k]
  {
    if s[0] == c then 0
    else
      var k := FirstIndex(s[1..], c);
      assert s[1..][..k] == s[1..k + 1];
      k + 1
  }

  /** strings.SplitN(s, string(c), 2): `[s]` when `c` does not occur, otherwise the text before
    * the first `c` and everything after it. */
  function SplitFirst(s: string, c: char): (parts: seq<string>)
    ensures 1 <= |parts| <= 2
    ensures |parts| == 1 <==> c !in s
    ensures |parts| == 1 ==> parts[0] == s
    ensures |parts| == 2 ==> c !in parts[0] && s == parts[0] + [c] + parts[1]
  {
    if c in s then
      var k := FirstIndex(s, c);
      assert s == s[..k] + [c] + s[k + 1..];
      [s[..k], s[k + 1..]]
    else [s]
  }

  // ---------------------------------------------------------------- suffixes and spaces

  /** strings.HasSuffix(s, string(c)) */
  predicate EndsWith(s: string, c: char) {
    |s| > 0 && s[|s| - 1] == c
  }

  /** strings.TrimSuffix(s, string(c)) */
  function TrimSuffix(s: string, c: char): (r: string)
    ensures EndsWith(s, c) ==> r + [c] == s
    ensures !EndsWith(s, c) ==> r == s
  {
    if EndsWith(s, c) then s[..|s| - 1] else s
  }

  /** Go's unicode.IsSpace: the Latin-1 spaces and the Unicode White_Space characters above them. */
  predicate IsSpace(ch: char) {
    var n := ch as int;
    n == 0x20 || (0x09 <= n <= 0x0D) || n == 0x85 || n == 0xA0 || n == 0x1680
    || (0x2000 <= n <= 0x200A) || n == 0x2028 || n == 0x2029 || n == 0x202F
    || n == 0x205F || n == 0x3000
  }

  /** The number of white-space characters that `s` starts with. */
  function LeadingSpaces(s: string): (k: nat)
    ensures k <= |s| && (k == |s| || !IsSpace(s[k]))
    ensures forall j :: 0 <= j < k ==> IsSpace(s[j])
    decreases |s|
  {
    if s != [] && IsSpace(s[0]) then LeadingSpaces(s[1..]) + 1 else 0
  }

  /** The number of white-space characters that `s` ends with. */
  function TrailingSpaces(s: string): (k: nat)
    ensures k <= |s| && (k == |s| || !IsSpace(s[|s| - 1 - k]))
    ensures forall j :: |s| - k <= j < |s| ==> IsSpace(s[j])
    decreases |s|
  {
    if s != [] && IsSpace(s[|s| - 1]) then TrailingSpaces(s[..|s| - 1]) + 1 else 0
  }

  /** strings.TrimSpace: `s` without its leading and trailing white space. */
  function TrimSpace(s: string): (r: string)
    ensures r == [] || (!IsSpace(r[0]) && !IsSpace(r[|r| - 1]))
    ensures AllSpace(s) ==> r == []
    ensures LeadingSpaces(s) + |r| <= |s| && r == s[LeadingSpaces(s)..LeadingSpaces(s) + |r|]
    ensures AllSpace(s[..LeadingSpaces(s)]) && AllSpace(s[LeadingSpaces(s) + |r|..])
  {
    var a := LeadingSpaces(s);
    var b := a + (|s| - a - TrailingSpaces(s[a..]));
    TrailingBound(s, a, b);
    SliceBetweenSpaces(s, a, b);
    assert a < b ==> !IsSpace(s[b - 1]) by {
      if a < b {
        LastKept(s, a, b);
      }
    }
    assert AllSpace(s) ==> a == b by {
      if AllSpace(s) {
        AllLeading(s);
      }
    }
    assert a < b ==> !IsSpace(s[a..b][0]) && s[a..b][b - a - 1] == s[b - 1];
    s[a..b]
  }

  /** Past the bound TrimSpace cuts at there is only white space. */
  lemma TrailingBound(s: string, a: nat, b: nat)
    requires a <= |s| && b == a + (|s| - a - TrailingSpaces(s[a..]))
    ensures forall j :: b <= j < |s| ==> IsSpace(s[j])
  {
    var t := s[a..];
    forall j | b <= j < |s| ensures IsSpace(s[j]) {
      assert s[j] == t[j - a];
    }
  }

  /** The last character TrimSpace keeps is not white space. */
  lemma LastKept(s: string, a: nat, b: nat)
    requires a < b && a <= |s| && b == a + (|s| - a - TrailingSpaces(s[a..]))
    ensures !IsSpace(s[b - 1])
  {
    var t := s[a..];
    assert s[b - 1] == t[|t| - 1 - TrailingSpaces(t)];
  }

  /** A string of white space only is all leading white space. */
  lemma AllLeading(s: string)
    requires AllSpace(s)
    ensures LeadingSpaces(s) == |s|
  {
  }

  predicate AllSpace(s: string) {
    forall i :: 0 <= i < |s| ==> IsSpace(s[i])
  }

  lemma SliceBetweenSpaces(s: string, a: nat, b: nat)
    requires a <= b <= |s|
    requires forall j :: 0 <= j < a ==> IsSpace(s[j])
    requires forall j :: b <= j < |s| ==> IsSpace(s[j])
    ensures AllSpace(s[..a]) && AllSpace(s[b..])
  {
    var pre, post := s[..a], s[b..];
    assert forall j :: 0 <= j < |pre| ==> pre[j] == s[j];
    assert forall j :: 0 <= j < |post| ==> post[j] == s[b + j];
  }

  // ---------------------------------------------------------------- decimal numbers

  predicate IsDigit(ch: char) {
    '0' <= ch <= '9'
  }

  predicate AllDigits(s: string) {
    forall i :: 0 <= i < |s| ==> IsDigit(s[i])
  }

  function DigitChar(d: nat): (ch: char)
    requires d < 10
    ensures IsDigit(ch) && ch as int - '0' as int == d
  {
    ['0', '1', '2', '3', '4', '5', '6', '7', '8', '9'][d]
  }

  /** The number a string of decimal digits denotes. */
  function DecimalValue(s: string): nat
    requires AllDigits(s)
    decreases |s|
  {
    if s == [] then 0 else DecimalValue(s[..|s| - 1]) * 10 + (s[|s| - 1] as int - '0' as int)
  }

  /** fmt's `%d` of a non-negative integer: its decimal digits, without leading zeros. */
  function NatToString(n: nat): (s: string)
    ensures |s| >= 1 && AllDigits(s)
    ensures s[0] == '0' ==> n == 0
    decreases n
  {
    if n < 10 then [DigitChar(n)] else NatToString(n / 10) + [DigitChar(n % 10)]
  }

  /** `%d` and reading the digits back are inverse. */
  lemma {:induction false} NatToStringValue(n: nat)
    ensures DecimalValue(NatToString(n)) == n
    decreases n
  {
    if n >= 10 {
      var s := NatToString(n);
      NatToStringValue(n / 10);
      assert s[..|s| - 1] == NatToString(n / 10);
    }
  }

  /** Distinct numbers print as distinct strings. */
  lemma NatToStringInjective(a: nat, b: nat)
    requires NatToString(a) == NatToString(b)
    ensures a == b
  {
    NatToStringValue(a);
    NatToStringValue(b);
  }

  const MaxUint32: nat := 0xFFFF_FFFF
  const Int32Cutoff: nat := 0x8000_0000

  /** The two kinds of strconv.NumError: strconv.ErrSyntax and strconv.ErrRange. */
  datatype NumError = Syntax | Range

  /** The digit loop of strconv.ParseUint(s, 10, 32), from index `i` with `n` read so far:
    * a non-digit is a syntax error, a value above 2^32-1 a range error, at the first
    * character where either shows. */
  function ScanDigits(s: string, i: nat, n: nat): (r: Result<nat, NumError>)
    requires i <= |s|
    decreases |s| - i
  {
    if i == |s| then Ok(n)
    else if !IsDigit(s[i]) then Err(Syntax)
    else
      var n1 := n * 10 + (s[i] as int - '0' as int);
      if n1 > MaxUint32 then Err(Range) else ScanDigits(s, i + 1, n1)
  }

  /** strconv.ParseUint(s, 10, 32) */
  function ParseUint32(s: string): (r: Result<nat, NumError>)
  {
    if s == [] then Err(Syntax) else ScanDigits(s, 0, 0)
  }

  /** strconv.ParseInt(s, 10, 32): an optional sign, then ParseUint of the rest; the signed value
    * must lie in [-2^31, 2^31 - 1]. */
  function ParseInt32(s: string): (r: Result<int, NumError>)
    ensures r.Ok? ==> -(Int32Cutoff as int) <= r.value < Int32Cutoff
    ensures r.Ok? ==> s != []
  {
    if s == [] then Err(Syntax)
    else
      var neg := s[0] == '-';
      var digits := if s[0] == '+' || s[0] == '-' then s[1..] else s;
      match ParseUint32(digits)
      case Err(e) => Err(e)
      case Ok(un) =>
        if !neg && un >= Int32Cutoff then Err(Range)
        else if neg && un > Int32Cutoff then Err(Range)
        else
          var v: int := if neg then -(un as int) else un;
          Ok(v)
  }

  lemma {:induction false} DecimalValuePrefix(s: string, i: nat)
    requires AllDigits(s) && i <= |s|
    ensures DecimalValue(s[..i]) <= DecimalValue(s)
    decreases |s| - i
  {
    if i < |s| {
      DecimalValuePrefix(s, i + 1);
      var t := s[..i + 1];
      assert t[..|t| - 1] == s[..i];
      assert IsDigit(t[|t| - 1]);
      assert DecimalValue(t) == DecimalValue(s[..i]) * 10 + (t[|t| - 1] as int - '0' as int);
    } else {
      assert s[..i] == s;
    }
  }

  lemma {:induction false} ScanDigitsValue(s: string, i: nat)
    requires AllDigits(s) && i <= |s| && DecimalValue(s) <= MaxUint32
    ensures ScanDigits(s, i, DecimalValue(s[..i])) == Ok(DecimalValue(s))
    decreases |s| - i
  {
    if i == |s| {
      assert s[..i] == s;
    } else {
      assert s[..i + 1][..i] == s[..i];
      DecimalValuePrefix(s, i + 1);
      ScanDigitsValue(s, i + 1);
    }
  }

  /** Reading back what `%d` printed: ParseInt(itoa(n), 10, 32) == n for every n below 2^31. */
  lemma ParseInt32OfNatToString(n: nat)
    requires n < Int32Cutoff
    ensures ParseInt32(NatToString(n)) == Ok(n)
  {
    var s := NatToString(n);
    NatToStringValue(n);
    assert s[..0] == [];
    ScanDigitsValue(s, 0);
    assert s[0] != '+' && s[0] != '-';
  }
}
