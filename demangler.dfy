// Recognising Itanium-mangled names and demangling them. The demangler
// itself (`__cxa_demangle`) is library code; it is the `demangle` field of
// `Host`, which reports failure as None.
module Demangler {
  import opened Common
  import opened Llvm

  /** std::string::find_first_not_of(c): the first position not holding c,
      None where the library returns npos. */
  function FindFirstNotOf(s: string, c: char): (r: Option<nat>)
    ensures r.Some? ==> r.value < |s| && s[r.value] != c && forall j :: 0 <= j < r.value ==> s[j] == c
    ensures r.None? ==> forall j :: 0 <= j < |s| ==> s[j] == c
  {
    if |s| == 0 then None
    else if s[0] != c then Some(0)
    else match FindFirstNotOf(s[1..], c)
      case None => None
      case Some(k) => Some(k + 1)
  }

  /** is_itanium_encoding: the first non-underscore comes after one to four
      underscores and is 'Z'. npos (no such character) fails the first two
      tests, so a name of underscores only is not Itanium. */
  predicate IsItaniumEncoding(name: string) {
    var pos := FindFirstNotOf(name, '_');
    pos.Some? && pos.value > 0 && pos.value <= 4 && name[pos.value] == 'Z'
  }

  /** k underscores. */
  function Underscores(k: nat): (r: string)
    ensures |r| == k && forall i :: 0 <= i < k ==> r[i] == '_'
  {
    if k == 0 then "" else Underscores(k - 1) + "_"
  }

  /** The Itanium names are exactly those of the form "_"^k + "Z" + rest with
      1 <= k <= 4: every such name is Itanium ... */
  lemma ItaniumOfShape(k: nat, rest: string)
    requires 1 <= k <= 4
    ensures IsItaniumEncoding(Underscores(k) + "Z" + rest)
  {
    var s := Underscores(k) + "Z" + rest;
    assert s[k] == 'Z';
    assert forall j :: 0 <= j < k ==> s[j] == '_';
    FirstNotOfAt(s, '_', k);
  }

  /** ... and every Itanium name has that shape. */
  lemma ItaniumHasShape(name: string)
    requires IsItaniumEncoding(name)
    ensures var k := FindFirstNotOf(name, '_').value;
      1 <= k <= 4 && name == Underscores(k) + "Z" + name[k + 1..]
  {
    var k := FindFirstNotOf(name, '_').value;
    assert name == name[..k] + [name[k]] + name[k + 1..];
    assert name[..k] == Underscores(k);
  }

  lemma FirstNotOfAt(s: string, c: char, k: nat)
    requires k < |s| && s[k] != c && forall j :: 0 <= j < k ==> s[j] == c
    ensures FindFirstNotOf(s, c) == Some(k)
  {
  }

  /** The names the check turns away: no leading underscore, five or more
      leading underscores, or underscores only (including the empty name). */
  lemma NotItanium(name: string)
    ensures |name| == 0 || name[0] != '_' ==> !IsItaniumEncoding(name)
    ensures |name| >= 5 && name[..5] == Underscores(5) ==> !IsItaniumEncoding(name)
    ensures (forall j :: 0 <= j < |name| ==> name[j] == '_') ==> !IsItaniumEncoding(name)
  {
    if |name| >= 5 && name[..5] == Underscores(5) {
      assert forall j :: 0 <= j < 5 ==> name[j] == name[..5][j];
    }
  }

  /** The copy of the check in the orchestrator is the same predicate. */
  lemma OrchestratorItanium(name: string)
    ensures IsItaniumEncoding(name) <==>
      (exists k :: 1 <= k <= 4 && k < |name| && name[k] == 'Z' && name[..k] == Underscores(k))
  {
    if IsItaniumEncoding(name) {
      var k := FindFirstNotOf(name, '_').value;
      ItaniumHasShape(name);
      assert name[..k] == Underscores(k);
    }
    if exists k :: 1 <= k <= 4 && k < |name| && name[k] == 'Z' && name[..k] == Underscores(k) {
      var k :| 1 <= k <= 4 && k < |name| && name[k] == 'Z' && name[..k] == Underscores(k);
      assert forall j :: 0 <= j < k ==> name[j] == name[..k][j];
      FirstNotOfAt(name, '_', k);
    }
  }

  /** demangle(const char*): the demangled text, or the input unchanged when
      the demangler reports failure. */
  function DemangleCStr(h: Host, name: string): (r: string)
    ensures h.demangle(name).None? ==> r == name
    ensures h.demangle(name).Some? ==> r == h.demangle(name).value
  {
    match h.demangle(name)
    case Some(d) => d
    case None => name
  }

  /** The characters `c_str()` hands over: a C string ends at the first NUL. */
  function CStr(s: string): (r: string)
    ensures |r| <= |s| && r == s[..|r|] && '\0' !in r
    ensures |r| < |s| ==> s[|r|] == '\0'
  {
    if |s| == 0 || s[0] == '\0' then "" else [s[0]] + CStr(s[1..])
  }

  /** demangle(const std::string&): the C-string overload on `c_str()`. */
  function Demangle(h: Host, name: string): string {
    DemangleCStr(h, CStr(name))
  }

  /** For a name without NUL characters the two overloads agree; a failed
      demangling then returns the name itself. */
  lemma {:induction false} DemangleOverloads(h: Host, name: string)
    requires '\0' !in name
    ensures CStr(name) == name
    ensures Demangle(h, name) == DemangleCStr(h, name)
    ensures h.demangle(name).None? ==> Demangle(h, name) == name
  {
    if |name| > 0 {
      assert '\0' !in name[1..] by {
        forall c | c in name[1..] ensures c != '\0' { assert c in name; }
      }
      DemangleOverloads(h, name[1..]);
      assert name == [name[0]] + name[1..];
    }
  }
}
