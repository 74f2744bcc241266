/**
 * The decimal conversions the score file relies on: Go's %d formatting
 * (strconv.Itoa) and strconv.Atoi with its syntax and range errors on the
 * 64-bit int of the platform, plus strings.Split on a one-character
 * separator.
 */
module Strconv {

  const MaxInt64: int := 0x7fff_ffff_ffff_ffff
  const MinInt64: int := -0x8000_0000_0000_0000

  predicate IsDigit(c: char) { '0' <= c <= '9' }

  predicate AllDigits(s: string) { forall k :: 0 <= k < |s| ==> IsDigit(s[k]) }

  function DigitChar(d: int): (c: char)
    requires 0 <= d < 10
    ensures IsDigit(c) && c as int - '0' as int == d
  {
    ('0' as int + d) as char
  }

  /** The decimal digits of n, most significant first, without leading zeros. */
  function NatToString(n: nat): (s: string)
    ensures |s| >= 1 && AllDigits(s)
    ensures n >= 10 ==> s[0] != '0'
    decreases n
  {
    if n < 10 then [DigitChar(n)] else NatToString(n / 10) + [DigitChar(n % 10)]
  }

  /** strconv.Itoa, which is also what %d prints. */
  function Itoa(n: int): (s: string)
    ensures |s| >= 1
    ensures n >= 0 ==> AllDigits(s)
    ensures n < 0 ==> s[0] == '-' && |s| >= 2 && AllDigits(s[1..])
  {
    if n < 0 then "-" + NatToString(-n) else NatToString(n)
  }

  /** The number that a run of decimal digits spells. */
  function DigitsValue(s: string): nat
    requires AllDigits(s)
    decreases |s|
  {
    if s == [] then 0 else DigitsValue(s[..|s| - 1]) * 10 + (s[|s| - 1] as int - '0' as int)
  }

  lemma {:induction false} DigitsOfNat(n: nat)
    ensures DigitsValue(NatToString(n)) == n
    decreases n
  {
    if n >= 10 {
      var s := NatToString(n);
      assert s[..|s| - 1] == NatToString(n / 10);
      DigitsOfNat(n / 10);
    }
  }

  /** What strconv.Atoi returns: the value, and whether the error was nil. */
  datatype AtoiResult = AtoiResult(value: int, ok: bool)

  /** The largest value of a uint64, where ParseUint stops with a range error. */
  const MaxUint64: int := 0xffff_ffff_ffff_ffff

  /** Whether the number is written with a minus sign. */
  predicate Negative(s: string) { |s| >= 1 && s[0] == '-' }

  /** The string with its optional leading '+' or '-' taken off. */
  function Unsigned(s: string): (u: string)
    ensures |s| >= 1 && IsDigit(s[0]) ==> u == s
  {
    if |s| >= 1 && (s[0] == '-' || s[0] == '+') then s[1..] else s
  }

  /** The longest run of decimal digits the string starts with. */
  function LeadingDigits(s: string): (run: string)
    ensures |run| <= |s| && run == s[..|run|] && AllDigits(run)
    ensures |run| < |s| ==> !IsDigit(s[|run|])
    ensures AllDigits(s) ==> run == s
    decreases |s|
  {
    if s == [] || !IsDigit(s[0]) then "" else [s[0]] + LeadingDigits(s[1..])
  }

  /** Whether the digits after the sign begin with a run past MaxUint64. */
  predicate RunOverflows(s: string) {
    DigitsValue(LeadingDigits(Unsigned(s))) > MaxUint64
  }

  /** The 64-bit bound on the side of the number's sign. */
  function Bound(s: string): (b: int)
    ensures b == MinInt64 || b == MaxInt64
  {
    if Negative(s) then MinInt64 else MaxInt64
  }

  /**
   * strconv.Atoi in base 10: an optional sign and at least one digit.
   * ParseUint reads the digits from the left and stops at the first digit
   * that takes the value past MaxUint64 with a range error, before it can
   * reach a later stray character; otherwise a stray character is a syntax
   * error. A syntax error yields 0, a range error the 64-bit bound on the
   * number's side; both report an error.
   */
  function Atoi(s: string): (r: AtoiResult)
    ensures r.ok ==> MinInt64 <= r.value <= MaxInt64
    ensures r.ok ==> |Unsigned(s)| >= 1 && AllDigits(Unsigned(s))
    ensures |s| == 0 ==> r == AtoiResult(0, false)
    ensures AllDigits(s) && |s| >= 1 && DigitsValue(s) <= MaxInt64 ==> r == AtoiResult(DigitsValue(s), true)
    ensures RunOverflows(s) ==> r == AtoiResult(Bound(s), false)
    ensures !r.ok ==> r.value in {0, MaxInt64, MinInt64}
  {
    var digits := Unsigned(s);
    var run := LeadingDigits(digits);
    if DigitsValue(run) > MaxUint64 then AtoiResult(Bound(s), false)
    else if |digits| == 0 || |run| < |digits| then AtoiResult(0, false)
    else
      var v: int := DigitsValue(run);
      if Negative(s) then
        (if -v < MinInt64 then AtoiResult(MinInt64, false) else AtoiResult(-v, true))
      else
        (if v > MaxInt64 then AtoiResult(MaxInt64, false) else AtoiResult(v, true))
  }

  /** Atoi reads back what Itoa prints, for every 64-bit value. */
  lemma AtoiItoa(n: int)
    requires MinInt64 <= n <= MaxInt64
    ensures Atoi(Itoa(n)) == AtoiResult(n, true)
  {
    var s := Itoa(n);
    if n < 0 {
      DigitsOfNat(-n);
      assert Unsigned(s) == NatToString(-n);
      assert LeadingDigits(Unsigned(s)) == NatToString(-n);
    } else {
      DigitsOfNat(n);
      assert LeadingDigits(Unsigned(s)) == s;
    }
  }

  /**
   * An empty field, a sign alone or a stray character is an error: a syntax
   * error that yields 0, unless the digits before it already pass MaxUint64,
   * which is a range error that yields the bound.
   */
  lemma AtoiSyntaxError(s: string)
    requires |s| >= 1 && !IsDigit(s[|s| - 1])
    ensures Atoi(s) == AtoiResult(if RunOverflows(s) then Bound(s) else 0, false)
  {
  }

  // ---------------------------------------------------------------------
  // strings.Split on one character
  // ---------------------------------------------------------------------

  /** The parts joined back with the separator. */
  function Join(parts: seq<string>, sep: char): string
    requires |parts| >= 1
    decreases |parts|
  {
    if |parts| == 1 then parts[0] else parts[0] + [sep] + Join(parts[1..], sep)
  }

  /**
   * strings.Split(s, sep): the maximal separator-free pieces, in order; one
   * more piece than separators, so "" splits into [""].
   */
  function Split(s: string, sep: char): (parts: seq<string>)
    ensures |parts| >= 1
    ensures forall k :: 0 <= k < |parts| ==> sep !in parts[k]
    ensures Join(parts, sep) == s
    decreases |s|
  {
    if s == [] then [""]
    else
      var rest := Split(s[1..], sep);
      if s[0] == sep then [""] + rest
      else [[s[0]] + rest[0]] + rest[1..]
  }

  /** Splitting the join of separator-free pieces gives the pieces back. */
  lemma {:induction false} SplitJoin(parts: seq<string>, sep: char)
    requires |parts| >= 1
    requires forall k :: 0 <= k < |parts| ==> sep !in parts[k]
    ensures Split(Join(parts, sep), sep) == parts
    decreases |parts|
  {
    if |parts| == 1 {
      SplitPiece(parts[0], sep);
    } else {
      SplitCons(parts[0], sep, Join(parts[1..], sep));
      SplitJoin(parts[1..], sep);
    }
  }

  /** A separator-free piece followed by the separator splits off as the first part. */
  lemma {:induction false} SplitCons(p: string, sep: char, rest: string)
    requires sep !in p
    ensures Split(p + [sep] + rest, sep) == [p] + Split(rest, sep)
    decreases |p|
  {
    var s := p + [sep] + rest;
    if p == [] {
      assert s[1..] == rest;
    } else {
      assert sep !in p[1..] by {
        assert forall c :: c in p[1..] ==> c in p;
      }
      assert s[1..] == p[1..] + [sep] + rest;
      SplitCons(p[1..], sep, rest);
      assert [p[0]] + p[1..] == p;
    }
  }

  lemma {:induction false} SplitPiece(p: string, sep: char)
    requires sep !in p
    ensures Split(p, sep) == [p]
    decreases |p|
  {
    if p != [] {
      assert sep !in p[1..] by {
        assert forall c :: c in p[1..] ==> c in p;
      }
      SplitPiece(p[1..], sep);
      assert [p[0]] + p[1..] == p;
    }
  }
}
