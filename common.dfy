// Shared vocabulary of the fact generator model: optional values, error
// results, the fact tuples the generator appends to its sink, and the decimal
// rendering of numbers that every refmode and every index column uses.
module Common {

  datatype Option<T> = None | Some(value: T)

  /** An operation that either produces a value or fails with a message,
      standing for a thrown exception or a malformed-module report. */
  datatype Result<T> = Ok(value: T) | Err(msg: string)

  /** One tuple written to the sink: the predicate (relation) name and its
      columns, every column already rendered as text. */
  datatype Fact = Fact(pred: string, cols: seq<string>)

  // ---------------------------------------------------------------------
  // Decimal rendering (std::to_string on unsigned and signed integers)
  // ---------------------------------------------------------------------

  predicate IsDigit(c: char) { '0' <= c <= '9' }

  /** The characters `isspace` accepts in the classic locale. */
  predicate IsSpace(c: char) {
    c == ' ' || c == '\t' || c == '\n' || c == '\r' || c == '\U{B}' || c == '\U{C}'
  }

  predicate AllDigits(s: string) { forall i :: 0 <= i < |s| ==> IsDigit(s[i]) }

  function DigitChar(d: nat): (c: char)
    requires d < 10
    ensures IsDigit(c) && (c as int) - ('0' as int) == d
  {
    ['0', '1', '2', '3', '4', '5', '6', '7', '8', '9'][d]
  }

  /** The decimal text of a natural number, most significant digit first. */
  function NatToString(n: nat): (s: string)
    ensures |s| >= 1 && AllDigits(s)
  {
    if n < 10 then [DigitChar(n)] else NatToString(n / 10) + [DigitChar(n % 10)]
  }

  /** The value of a non-empty digit string; the inverse of NatToString. */
  function DigitsValue(s: string): nat
    requires AllDigits(s)
  {
    if |s| == 0 then 0
    else DigitsValue(s[..|s| - 1]) * 10 + ((s[|s| - 1] as int) - ('0' as int))
  }

  lemma {:induction false} NatToStringRoundTrip(n: nat)
    ensures DigitsValue(NatToString(n)) == n
  {
    if n >= 10 {
      var s := NatToString(n);
      assert s[..|s| - 1] == NatToString(n / 10);
      NatToStringRoundTrip(n / 10);
    }
  }

  /** Distinct numbers have distinct decimal texts. */
  lemma NatToStringInjective(a: nat, b: nat)
    ensures NatToString(a) == NatToString(b) <==> a == b
  {
    if NatToString(a) == NatToString(b) {
      NatToStringRoundTrip(a);
      NatToStringRoundTrip(b);
    }
  }

  /** std::to_string of a signed integer: a minus sign before the magnitude. */
  function IntToString(i: int): (s: string)
    ensures |s| >= 1
    ensures (i < 0) <==> s[0] == '-'
  {
    if i < 0 then "-" + NatToString(-i) else NatToString(i)
  }

  lemma DropSign(t: string)
    ensures ("-" + t)[1..] == t
  {
  }

  lemma IntToStringInjective(a: int, b: int)
    ensures IntToString(a) == IntToString(b) <==> a == b
  {
    if IntToString(a) == IntToString(b) {
      if a < 0 && b < 0 {
        DropSign(NatToString(-a));
        DropSign(NatToString(-b));
        NatToStringInjective(-a, -b);
      } else if a >= 0 && b >= 0 {
        NatToStringInjective(a, b);
      }
    }
  }

  /** The length of the longest all-digit prefix of `s`. */
  function DigitRun(s: string): (n: nat)
    ensures n <= |s|
  {
    if |s| == 0 || !IsDigit(s[0]) then 0 else 1 + DigitRun(s[1..])
  }

  lemma {:induction false} DigitRunBeforeSeparator(d: string, sep: char, x: string)
    requires AllDigits(d) && !IsDigit(sep)
    ensures DigitRun(d + [sep] + x) == |d|
  {
    if |d| > 0 {
      assert (d + [sep] + x)[1..] == d[1..] + [sep] + x;
      DigitRunBeforeSeparator(d[1..], sep, x);
    }
  }

  /** A separator that is not a digit ends a decimal number unambiguously:
      "<digits>:<rest>" determines both the number and the rest. Every refmode
      that appends a counter followed by ':' relies on this. */
  lemma NumberThenSeparator(a: nat, b: nat, sep: char, x: string, y: string)
    requires !IsDigit(sep)
    requires NatToString(a) + [sep] + x == NatToString(b) + [sep] + y
    ensures a == b && x == y
  {
    var da, db := NatToString(a), NatToString(b);
    var l, r := da + [sep] + x, db + [sep] + y;
    DigitRunBeforeSeparator(da, sep, x);
    DigitRunBeforeSeparator(db, sep, y);
    assert da == l[..|da|] == r[..|db|] == db;
    assert x == l[|da| + 1..] == r[|db| + 1..] == y;
    NatToStringInjective(a, b);
  }

  // ---------------------------------------------------------------------
  // Small string helpers
  // ---------------------------------------------------------------------

  /** std::string::find_last_of: the last position holding one of `cs`. */
  function FindLastOf(s: string, cs: set<char>): (r: Option<nat>)
    ensures r.Some? ==> r.value < |s| && s[r.value] in cs
                        && forall j :: r.value < j < |s| ==> s[j] !in cs
    ensures r.None? ==> forall j :: 0 <= j < |s| ==> s[j] !in cs
  {
    if |s| == 0 then None
    else if s[|s| - 1] in cs then Some(|s| - 1)
    else FindLastOf(s[..|s| - 1], cs)
  }

  /** The one fact when the condition holds, nothing otherwise: the shape
      of every conditional writeFact. */
  function When(c: bool, f: Fact): seq<Fact> { if c then [f] else [] }

  /** Indexing into the middle part of a concatenation. */
  lemma Middle<T>(a: seq<T>, b: seq<T>, c: seq<T>, i: nat)
    requires i < |b|
    ensures (a + b + c)[|a| + i] == b[i]
  {
  }
}
