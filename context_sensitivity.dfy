// The context-sensitivity settings of the pointer analysis: nineteen enum
// values, their names, and the stream extractor that reads one of them.
module ContextSensitivities {
  import opened Common

  /** The call-string depth of a k-callsite or k-caller setting. */
  newtype Depth = k: int | 1 <= k <= 9 witness 1

  datatype ContextSensitivity = Insensitive | Callsite(depth: Depth) | Caller(depth: Depth)

  /** All settings in declaration order: INSENSITIVE, CALLSITE1..9,
      CALLER1..9. */
  function All(): (r: seq<ContextSensitivity>)
    ensures |r| == 19
  {
    [Insensitive,
     Callsite(1), Callsite(2), Callsite(3), Callsite(4), Callsite(5),
     Callsite(6), Callsite(7), Callsite(8), Callsite(9),
     Caller(1), Caller(2), Caller(3), Caller(4), Caller(5),
     Caller(6), Caller(7), Caller(8), Caller(9)]
  }

  /** A setting's position in declaration order. */
  function Position(s: ContextSensitivity): (r: nat)
    ensures r < 19
  {
    match s
    case Insensitive => 0
    case Callsite(k) => k as nat
    case Caller(k) => 9 + k as nat
  }

  lemma PositionsListed()
    ensures forall i :: 0 <= i < |All()| ==> Position(All()[i]) == i
  {
  }

  /** There are exactly nineteen settings, each listed once. */
  lemma AllSettings(s: ContextSensitivity)
    ensures s in All()
    ensures forall i, j :: 0 <= i < j < |All()| ==> All()[i] != All()[j]
  {
    PositionsListed();
    assert All()[Position(s)] == s;
  }

  /** context_sensitivity_to_string: "insensitive", "N-callsite", "N-caller". */
  function ToString(s: ContextSensitivity): (r: string)
    ensures |r| >= 8
  {
    match s
    case Insensitive => "insensitive"
    case Callsite(k) => [DigitChar(k as nat)] + "-callsite"
    case Caller(k) => [DigitChar(k as nat)] + "-caller"
  }

  /** The names are pairwise distinct, so the table is injective. */
  lemma ToStringInjective(a: ContextSensitivity, b: ContextSensitivity)
    ensures ToString(a) == ToString(b) <==> a == b
  {
    if a != b {
      var x, y := ToString(a), ToString(b);
      if a.Insensitive? || b.Insensitive? {
        assert x[0] != y[0] || |x| != |y|;
      } else if a.depth != b.depth {
        assert x[0] != y[0];
      } else {
        assert |x| != |y|;
      }
    }
  }

  /** The extractor's if-chain: the first setting, in declaration order,
      whose name is the token. */
  function Lookup(token: string, from: seq<ContextSensitivity>): (r: Option<ContextSensitivity>)
    ensures r.Some? ==> r.value in from && ToString(r.value) == token
    ensures r.None? ==> forall s :: s in from ==> ToString(s) != token
  {
    if |from| == 0 then None
    else if ToString(from[0]) == token then Some(from[0])
    else Lookup(token, from[1..])
  }

  function ParseToken(token: string): Option<ContextSensitivity> {
    Lookup(token, All())
  }

  /** Round trip: every name parses back to its setting, and a token parses
      exactly when it is one of the nineteen names. */
  lemma ParseRoundTrip(s: ContextSensitivity, token: string)
    ensures ParseToken(ToString(s)) == Some(s)
    ensures ParseToken(token).Some? <==> exists t :: t in All() && ToString(t) == token
    ensures ParseToken(token).Some? ==> ToString(ParseToken(token).value) == token
  {
    AllSettings(s);
    var r := ParseToken(ToString(s));
    ToStringInjective(r.value, s);
  }

  // ---------------------------------------------------------------------
  // operator>>: reading one whitespace-delimited token
  // ---------------------------------------------------------------------

  /** The first position at or after i that is not white space. */
  function SkipSpace(text: string, i: nat): (r: nat)
    requires i <= |text|
    ensures i <= r <= |text|
    ensures forall j :: i <= j < r ==> IsSpace(text[j])
    ensures r < |text| ==> !IsSpace(text[r])
    decreases |text| - i
  {
    if i < |text| && IsSpace(text[i]) then SkipSpace(text, i + 1) else i
  }

  /** The end of the run of non-space characters starting at i. */
  function TokenEnd(text: string, i: nat): (r: nat)
    requires i <= |text|
    ensures i <= r <= |text|
    ensures forall j :: i <= j < r ==> !IsSpace(text[j])
    ensures r < |text| ==> IsSpace(text[r])
    decreases |text| - i
  {
    if i < |text| && !IsSpace(text[i]) then TokenEnd(text, i + 1) else i
  }

  /** A character stream: its text, the read position and the failbit. */
  class InStream {
    var text: string
    var pos: nat
    var failed: bool

    ghost predicate Valid() reads this { pos <= |text| }

    constructor (text: string)
      ensures Valid() && this.text == text && pos == 0 && !failed
    {
      this.text := text;
      pos := 0;
      failed := false;
    }
  }

  /** The token `in >> token` extracts, and the position after it. A stream
      already failed extracts nothing. */
  function NextToken(text: string, pos: nat, failed: bool): (r: (string, nat))
    requires pos <= |text|
    ensures pos <= r.1 <= |text|
    ensures failed ==> r == ("", pos)
    ensures !failed ==> forall j :: 0 <= j < |r.0| ==> !IsSpace(r.0[j])
  {
    if failed then ("", pos)
    else
      var start := SkipSpace(text, pos);
      var end := TokenEnd(text, start);
      (text[start..end], end)
  }

  /** The two scans of the extractor: past the white space, then to the
      end of the token. */
  method ScanToken(text: string, pos: nat) returns (start: nat, end: nat)
    requires pos <= |text|
    ensures start == SkipSpace(text, pos) && end == TokenEnd(text, start)
  {
    start := pos;
    while start < |text| && IsSpace(text[start])
      invariant pos <= start <= |text|
      invariant SkipSpace(text, pos) == SkipSpace(text, start)
    {
      start := start + 1;
    }
    end := start;
    while end < |text| && !IsSpace(text[end])
      invariant start <= end <= |text|
      invariant TokenEnd(text, start) == TokenEnd(text, end)
    {
      end := end + 1;
    }
  }

  /** operator>> on the stream's state: the setting read, the position
      after the token and the failbit. A name sets the output; anything else
      (including no token at all) sets the failbit and leaves the output as
      it was. */
  function Extract(text: string, pos: nat, failed: bool, sensitivity: ContextSensitivity): (r: (ContextSensitivity, nat, bool))
    requires pos <= |text|
    ensures pos <= r.1 <= |text|
  {
    var (token, end) := NextToken(text, pos, failed);
    match ParseToken(token)
    case Some(x) => (x, end, failed)
    case None => (sensitivity, end, true)
  }

  method Read(ins: InStream, sensitivity: ContextSensitivity) returns (r: ContextSensitivity)
    requires ins.Valid()
    modifies ins
    ensures ins.Valid() && ins.text == old(ins.text)
    ensures (r, ins.pos, ins.failed) == Extract(old(ins.text), old(ins.pos), old(ins.failed), sensitivity)
  {
    var token, end := ReadToken(ins.text, ins.pos, ins.failed);
    var parsed := ParseToken(token);
    ins.pos := end;
    if parsed.Some? {
      r := parsed.value;
    } else {
      r := sensitivity;
      ins.failed := true;
    }
  }

  /** The token and the position after it, by the two scans; nothing when
      the stream has already failed. */
  method ReadToken(text: string, pos: nat, failed: bool) returns (token: string, end: nat)
    requires pos <= |text|
    ensures (token, end) == NextToken(text, pos, failed)
  {
    token, end := "", pos;
    if !failed {
      var start;
      start, end := ScanToken(text, pos);
      token := text[start..end];
    }
  }

  /** No setting name holds white space, and none is empty. */
  lemma NameNoSpace(s: ContextSensitivity)
    ensures |ToString(s)| > 0 && forall j :: 0 <= j < |ToString(s)| ==> !IsSpace(ToString(s)[j])
  {
  }

  /** A stream holding a setting's name, followed by white space or nothing,
      reads that setting back, stops right after the name and stays good. */
  lemma ExtractName(s: ContextSensitivity, tail: string, sensitivity: ContextSensitivity)
    requires |tail| == 0 || IsSpace(tail[0])
    ensures Extract(ToString(s) + tail, 0, false, sensitivity) == (s, |ToString(s)|, false)
  {
    var name := ToString(s);
    var text := name + tail;
    NameNoSpace(s);
    assert text[0] == name[0];
    assert SkipSpace(text, 0) == 0;
    var end := TokenEnd(text, 0);
    assert forall j :: 0 <= j < |name| ==> text[j] == name[j];
    assert |tail| > 0 ==> text[|name|] == tail[0];
    assert text[0..end] == name;
    ParseRoundTrip(s, name);
  }

  /** A failed stream reads nothing: the output, the position and the
      failbit stay as they were. */
  lemma ExtractFailed(text: string, pos: nat, sensitivity: ContextSensitivity)
    requires pos <= |text|
    ensures Extract(text, pos, true, sensitivity) == (sensitivity, pos, true)
  {
    assert ParseToken("") == None by {
      forall t | t in All() ensures ToString(t) != "" {
      }
    }
  }

  /** The setting names the statistics script offers are the same nineteen
      strings, in the same order. */
  function ScriptValues(): seq<string> {
    ["insensitive",
     "1-callsite", "2-callsite", "3-callsite", "4-callsite", "5-callsite",
     "6-callsite", "7-callsite", "8-callsite", "9-callsite",
     "1-caller", "2-caller", "3-caller", "4-caller", "5-caller",
     "6-caller", "7-caller", "8-caller", "9-caller"]
  }

  lemma ScriptValuesAgree()
    ensures |ScriptValues()| == |All()|
    ensures forall i :: 0 <= i < |All()| ==> ScriptValues()[i] == ToString(All()[i])
  {
    forall i | 0 <= i < |All()| ensures ScriptValues()[i] == ToString(All()[i]) {
      if i < 2 {
        ScriptPair0(i);
      } else if i < 4 {
        ScriptPair1(i);
      } else if i < 6 {
        ScriptPair2(i);
      } else if i < 8 {
        ScriptPair3(i);
      } else if i < 10 {
        ScriptPair4(i);
      } else if i < 12 {
        ScriptPair5(i);
      } else if i < 14 {
        ScriptPair6(i);
      } else if i < 16 {
        ScriptPair7(i);
      } else if i < 18 {
        ScriptPair8(i);
      } else {
        ScriptPair9(i);
      }
    }
  }

  // The names are compared two at a time: one literal comparison is cheap,
  // many of them in one proof are not.

  lemma ScriptPair0(i: nat)
    requires i <= 1
    ensures ScriptValues()[i] == ToString(All()[i])
  {
    if i == 0 { assert ScriptValues()[0] == ToString(All()[0]); }
    else { assert ScriptValues()[1] == ToString(All()[1]); }
  }

  lemma ScriptPair1(i: nat)
    requires 2 <= i <= 3
    ensures ScriptValues()[i] == ToString(All()[i])
  {
    if i == 2 { assert ScriptValues()[2] == ToString(All()[2]); }
    else { assert ScriptValues()[3] == ToString(All()[3]); }
  }

  lemma ScriptPair2(i: nat)
    requires 4 <= i <= 5
    ensures ScriptValues()[i] == ToString(All()[i])
  {
    if i == 4 { assert ScriptValues()[4] == ToString(All()[4]); }
    else { assert ScriptValues()[5] == ToString(All()[5]); }
  }

  lemma ScriptPair3(i: nat)
    requires 6 <= i <= 7
    ensures ScriptValues()[i] == ToString(All()[i])
  {
    if i == 6 { assert ScriptValues()[6] == ToString(All()[6]); }
    else { assert ScriptValues()[7] == ToString(All()[7]); }
  }

  lemma ScriptPair4(i: nat)
    requires 8 <= i <= 9
    ensures ScriptValues()[i] == ToString(All()[i])
  {
    if i == 8 { assert ScriptValues()[8] == ToString(All()[8]); }
    else { assert ScriptValues()[9] == ToString(All()[9]); }
  }

  lemma ScriptPair5(i: nat)
    requires 10 <= i <= 11
    ensures ScriptValues()[i] == ToString(All()[i])
  {
    if i == 10 { assert ScriptValues()[10] == ToString(All()[10]); }
    else { assert ScriptValues()[11] == ToString(All()[11]); }
  }

  lemma ScriptPair6(i: nat)
    requires 12 <= i <= 13
    ensures ScriptValues()[i] == ToString(All()[i])
  {
    if i == 12 { assert ScriptValues()[12] == ToString(All()[12]); }
    else { assert ScriptValues()[13] == ToString(All()[13]); }
  }

  lemma ScriptPair7(i: nat)
    requires 14 <= i <= 15
    ensures ScriptValues()[i] == ToString(All()[i])
  {
    if i == 14 { assert ScriptValues()[14] == ToString(All()[14]); }
    else { assert ScriptValues()[15] == ToString(All()[15]); }
  }

  lemma ScriptPair8(i: nat)
    requires 16 <= i <= 17
    ensures ScriptValues()[i] == ToString(All()[i])
  {
    if i == 16 { assert ScriptValues()[16] == ToString(All()[16]); }
    else { assert ScriptValues()[17] == ToString(All()[17]); }
  }

  lemma ScriptPair9(i: nat)
    requires i == 18
    ensures ScriptValues()[i] == ToString(All()[i])
  {
    assert ScriptValues()[18] == ToString(All()[18]);
  }
}
