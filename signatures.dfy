// Points-to signatures: a JSON document maps function-name patterns to
// lists of summary components. Reading the document checks its outer shape
// and keeps one entry per pattern; emitting a function's summary checks each
// component against a closed table of seventeen summary kinds, each with
// a fixed list of argument types, and writes one fact per component. Any
// malformed part is an error (a thrown invalid_argument); the facts of the
// components before it stay written.
module Signatures {
  import opened Common
  import opened Generator

  /** A parsed JSON value, as far as the reader looks into it. A number is
      `JInteger` when getAsInteger yields a value for it (an integral number
      within the signed 64-bit range) and `JOtherNumber` otherwise. An
      object lists its members in the object's own iteration order; the
      parser admits no duplicate key. */
  datatype Json =
    | JNull
    | JBool(b: bool)
    | JInteger(i: int)
    | JOtherNumber
    | JString(s: string)
    | JArray(items: seq<Json>)
    | JObject(members: seq<(string, Json)>)

  /** The declared type of one summary argument. */
  datatype ArgKind = IntArg | StrArg

  /** One summary kind: its component key, the predicate it writes and the
      types of its arguments, in order. */
  datatype PtsKind = PtsKind(key: string, pred: string, args: seq<ArgKind>)

  /** A summary kind named by its stem: the component key is "pts_" + stem
      and the predicate signature::stem. */
  function Kind(stem: string, args: seq<ArgKind>): PtsKind {
    PtsKind("pts_" + stem, "signature::" + stem, args)
  }

  /** The stems and argument types of the summary kinds, in the order the
      component key is compared. */
  function Stems(): seq<(string, seq<ArgKind>)> {
    [("none", []),
     ("return_alloc", []),
     ("return_alloc_once", []),
     ("return_aliases_arg", [IntArg]),
     ("return_aliases_arg_reachable", [IntArg]),
     ("return_points_to_global", [StrArg]),
     ("return_aliases_global", [StrArg]),
     ("return_aliases_global_reachable", [StrArg]),
     ("arg_alloc", [IntArg]),
     ("arg_alloc_once", [IntArg]),
     ("arg_memcpy_arg", [IntArg, IntArg]),
     ("arg_memcpy_arg_reachable", [IntArg, IntArg]),
     ("arg_points_to_global", [IntArg, StrArg]),
     ("arg_memcpy_global", [IntArg, StrArg]),
     ("arg_memcpy_global_reachable", [IntArg, StrArg]),
     ("global_memcpy_arg", [StrArg, IntArg]),
     ("global_memcpy_arg_reachable", [StrArg, IntArg])]
  }

  /** The summary kinds, in the order the component key is compared. */
  function PtsKinds(): seq<PtsKind> {
    seq(|Stems()|, i requires 0 <= i < |Stems()| => Kind(Stems()[i].0, Stems()[i].1))
  }

  /** The else-if chain over the component key: the first kind whose key
      is the given one. */
  function FindKind(key: string, table: seq<PtsKind>): (r: Option<PtsKind>)
    ensures r.Some? ==> r.value in table && r.value.key == key
    ensures r.None? <==> forall i :: 0 <= i < |table| ==> table[i].key != key
  {
    if |table| == 0 then None
    else if table[0].key == key then Some(table[0])
    else FindKind(key, table[1..])
  }

  /** Component keys that carry no points-to information. */
  predicate Skipped(key: string) {
    key == "dataflow" || key == "output" || key == "input"
  }

  // ---------------------------------------------------------------------
  // Arguments
  // ---------------------------------------------------------------------

  const WrongArgument := "Wrong type of argument for signature!"

  /** extract_from_array: an integer argument as its decimal text, a string
      argument behind an "@"; a value of the wrong type gives nothing. */
  function ExtractFromArray(arr: seq<Json>, index: nat, k: ArgKind): (r: Option<string>)
    requires index < |arr|
    ensures r.Some? <==> (k.IntArg? && arr[index].JInteger?) || (k.StrArg? && arr[index].JString?)
    ensures r.Some? && k.IntArg? ==> r.value == IntToString(arr[index].i)
    ensures r.Some? && k.StrArg? ==> r.value == "@" + arr[index].s
  {
    match k
    case IntArg => if arr[index].JInteger? then Some(IntToString(arr[index].i)) else None
    case StrArg => if arr[index].JString? then Some("@" + arr[index].s) else None
  }

  /** extract_many_from_array: the arguments from `index` on, each of its
      declared type, or nothing as soon as one has the wrong type. */
  function ExtractMany(arr: seq<Json>, index: nat, kinds: seq<ArgKind>): (r: Option<seq<string>>)
    requires |kinds| >= 1 && index + |kinds| <= |arr|
    ensures r.Some? <==> forall i :: 0 <= i < |kinds| ==> ExtractFromArray(arr, index + i, kinds[i]).Some?
    ensures r.Some? ==> |r.value| == |kinds|
    ensures r.Some? ==> forall i :: 0 <= i < |kinds| ==> r.value[i] == ExtractFromArray(arr, index + i, kinds[i]).value
    decreases |kinds|
  {
    var t := ExtractFromArray(arr, index, kinds[0]);
    if t.None? then None
    else if |kinds| == 1 then Some([t.value])
    else
      var rest := ExtractMany(arr, index + 1, kinds[1..]);
      if rest.None? then None
      else
        ExtractCons(arr, index, kinds, rest.value);
        Some([t.value] + rest.value)
  }

  /** The first argument in front of the arguments after it. */
  lemma ExtractCons(arr: seq<Json>, index: nat, kinds: seq<ArgKind>, rest: seq<string>)
    requires |kinds| >= 2 && index + |kinds| <= |arr| && ExtractFromArray(arr, index, kinds[0]).Some?
    requires |rest| == |kinds| - 1
    requires forall i :: 0 <= i < |kinds| - 1 ==>
      ExtractFromArray(arr, index + 1 + i, kinds[1..][i]).Some? && rest[i] == ExtractFromArray(arr, index + 1 + i, kinds[1..][i]).value
    ensures forall i :: 0 <= i < |kinds| ==>
      ExtractFromArray(arr, index + i, kinds[i]).Some? &&
      ([ExtractFromArray(arr, index, kinds[0]).value] + rest)[i] == ExtractFromArray(arr, index + i, kinds[i]).value
  {
    var r := [ExtractFromArray(arr, index, kinds[0]).value] + rest;
    forall i | 0 <= i < |kinds|
      ensures ExtractFromArray(arr, index + i, kinds[i]).Some? && r[i] == ExtractFromArray(arr, index + i, kinds[i]).value
    {
      if i > 0 {
        assert r[i] == rest[i - 1];
        assert kinds[1..][i - 1] == kinds[i];
      }
    }
  }

  /** Whether every element of the argument array has its declared type. */
  predicate ArgsFit(items: seq<Json>, kinds: seq<ArgKind>)
    requires |items| == |kinds|
  {
    forall i :: 0 <= i < |kinds| ==> ExtractFromArray(items, i, kinds[i]).Some?
  }

  /** The argument columns of a well-typed argument array. */
  function ArgCols(items: seq<Json>, kinds: seq<ArgKind>): seq<string>
    requires |items| == |kinds| && ArgsFit(items, kinds)
  {
    seq(|kinds|, i requires 0 <= i < |kinds| => ExtractFromArray(items, i, kinds[i]).value)
  }

  // ---------------------------------------------------------------------
  // One component
  // ---------------------------------------------------------------------

  function ExpectsArray(key: string): string {
    "Signature " + key + " expects an array of arguments"
  }

  function WrongCount(key: string, expected: nat, found: nat): string {
    "Expected " + NatToString(expected) + " arguments for signature " + key + " but found " + NatToString(found)
  }

  /** write_pts_signature: the argument array must be an array of exactly
      the kind's arity whose elements have the declared types; the fact is
      the predicate over "@" + function name and the rendered arguments. */
  function WritePts(k: PtsKind, fname: string, v: Json): (r: Result<Fact>)
    ensures r.Ok? <==> v.JArray? && |v.items| == |k.args| && ArgsFit(v.items, k.args)
    ensures r.Ok? ==> r.value == Fact(k.pred, ["@" + fname] + ArgCols(v.items, k.args))
    ensures !v.JArray? ==> r == Err(ExpectsArray(k.key))
    ensures v.JArray? && |v.items| != |k.args| ==> r == Err(WrongCount(k.key, |k.args|, |v.items|))
    ensures v.JArray? && |v.items| == |k.args| && !ArgsFit(v.items, k.args) ==> r == Err(WrongArgument)
  {
    if !v.JArray? then Err(ExpectsArray(k.key))
    else if |v.items| != |k.args| then Err(WrongCount(k.key, |k.args|, |v.items|))
    else if |k.args| == 0 then Ok(Fact(k.pred, ["@" + fname]))
    else
      var args := ExtractMany(v.items, 0, k.args);
      if args.None? then Err(WrongArgument)
      else
        assert args.value == ArgCols(v.items, k.args);
        Ok(Fact(k.pred, ["@" + fname] + args.value))
  }

  function InvalidSignature(fname: string): string {
    "Invalid signature for function " + fname + ": "
  }

  /** Whether a component is an object with exactly one member. */
  predicate SingleMember(c: Json) {
    c.JObject? && |c.members| == 1
  }

  /** One component of a function's summary: the facts it writes, or the
      error it raises. */
  function Component(fname: string, c: Json): (r: Result<seq<Fact>>)
    ensures !SingleMember(c) ==> r == Err(InvalidSignature(fname))
    ensures SingleMember(c) && Skipped(c.members[0].0) ==> r == Ok([])
    ensures SingleMember(c) && !Skipped(c.members[0].0) && FindKind(c.members[0].0, PtsKinds()).None?
            ==> r == Err(InvalidSignature(fname) + ": unknown signature type '" + c.members[0].0 + "'")
    ensures SingleMember(c) && !Skipped(c.members[0].0) && FindKind(c.members[0].0, PtsKinds()).Some?
            ==> match WritePts(FindKind(c.members[0].0, PtsKinds()).value, fname, c.members[0].1)
                case Ok(f) => r == Ok([f])
                case Err(m) => r == Err(m)
    ensures r.Ok? ==> |r.value| <= 1
  {
    if !SingleMember(c) then Err(InvalidSignature(fname))
    else
      var (key, value) := c.members[0];
      if Skipped(key) then Ok([])
      else match FindKind(key, PtsKinds())
        case None => Err(InvalidSignature(fname) + ": unknown signature type '" + key + "'")
        case Some(k) =>
          match WritePts(k, fname, value)
          case Ok(f) => Ok([f])
          case Err(m) => Err(m)
  }

  // ---------------------------------------------------------------------
  // A function's summary
  // ---------------------------------------------------------------------

  /** What emitting a list of components leaves behind: the facts written
      and the error that stopped it, if any. */
  datatype Emission = Emission(facts: seq<Fact>, err: Option<string>)

  /** The components up to `n`, in order, each handled by `step`, stopping
      at the first error. */
  function Fold(step: Json -> Result<seq<Fact>>, comps: seq<Json>, n: nat): Emission
    requires n <= |comps|
  {
    if n == 0 then Emission([], None)
    else
      var e := Fold(step, comps, n - 1);
      if e.err.Some? then e
      else match step(comps[n - 1])
        case Err(m) => Emission(e.facts, Some(m))
        case Ok(fs) => Emission(e.facts + fs, None)
  }

  function Step(fname: string): Json -> Result<seq<Fact>> {
    c => Component(fname, c)
  }

  function EmitUpTo(fname: string, comps: seq<Json>, n: nat): Emission
    requires n <= |comps|
  {
    Fold(Step(fname), comps, n)
  }

  /** emit_signatures for one function and its list of components. */
  function Emitted(fname: string, comps: seq<Json>): Emission {
    EmitUpTo(fname, comps, |comps|)
  }

  /** Whether the components before `n` are all well formed. */
  predicate AllOk(step: Json -> Result<seq<Fact>>, comps: seq<Json>, n: nat)
    requires n <= |comps|
  {
    forall i :: 0 <= i < n ==> step(comps[i]).Ok?
  }

  /** The fold has no error exactly when every component is well formed. */
  lemma {:induction false} FoldError(step: Json -> Result<seq<Fact>>, comps: seq<Json>, n: nat)
    requires n <= |comps|
    ensures Fold(step, comps, n).err.None? <==> AllOk(step, comps, n)
  {
    if n > 0 {
      FoldError(step, comps, n - 1);
    }
  }

  /** Facts are never taken back: the facts written by the first `n`
      components are a prefix of those written by the first `m`. */
  lemma {:induction false} FoldGrows(step: Json -> Result<seq<Fact>>, comps: seq<Json>, n: nat, m: nat)
    requires n <= m <= |comps|
    ensures Fold(step, comps, n).facts <= Fold(step, comps, m).facts
  {
    if n < m {
      FoldGrows(step, comps, n, m - 1);
    }
  }

  /** Once a component is malformed nothing more is written: the facts
      are exactly those of the well-formed components before it, and the
      error is its own. */
  lemma {:induction false} StopsAtFirstError(step: Json -> Result<seq<Fact>>, comps: seq<Json>, j: nat, n: nat)
    requires j < n <= |comps|
    requires AllOk(step, comps, j) && step(comps[j]).Err?
    ensures Fold(step, comps, n) == Emission(Fold(step, comps, j).facts, Some(step(comps[j]).msg))
  {
    if n > j + 1 {
      StopsAtFirstError(step, comps, j, n - 1);
    } else {
      FoldError(step, comps, j);
    }
  }

  /** Folding over a prefix only looks at the prefix. */
  lemma {:induction false} FoldPrefix(step: Json -> Result<seq<Fact>>, comps: seq<Json>, more: seq<Json>, n: nat)
    requires n <= |comps| <= |more| && comps == more[..|comps|]
    ensures Fold(step, comps, n) == Fold(step, more, n)
  {
    if n > 0 {
      assert comps[n - 1] == more[n - 1];
      FoldPrefix(step, comps, more, n - 1);
    }
  }

  /** emit_signatures: the summary is written in full exactly when every
      component is well formed; otherwise the error is the first malformed
      component's and the facts of the components before it stay written. */
  lemma EmittedOutcome(fname: string, comps: seq<Json>, j: nat)
    requires j < |comps| && AllOk(Step(fname), comps, j) && Component(fname, comps[j]).Err?
    ensures Emitted(fname, comps).err == Some(Component(fname, comps[j]).msg)
    ensures Emitted(fname, comps).facts == EmitUpTo(fname, comps, j).facts
    ensures EmitUpTo(fname, comps, j).err.None?
    ensures EmitUpTo(fname, comps, j).facts <= Emitted(fname, comps).facts
  {
    StopsAtFirstError(Step(fname), comps, j, |comps|);
    FoldError(Step(fname), comps, j);
  }

  /** Without a malformed component there is no error. */
  lemma EmittedComplete(fname: string, comps: seq<Json>)
    ensures Emitted(fname, comps).err.None? <==> AllOk(Step(fname), comps, |comps|)
  {
    FoldError(Step(fname), comps, |comps|);
  }

  /** Every fact written is a summary-kind fact about "@" + the function
      name, with one column per declared argument after it. */
  lemma {:induction false} EmittedFactShape(fname: string, comps: seq<Json>, n: nat, f: Fact)
    requires n <= |comps| && f in EmitUpTo(fname, comps, n).facts
    ensures |f.cols| >= 1 && f.cols[0] == "@" + fname
    ensures exists k :: k in PtsKinds() && f.pred == k.pred && |f.cols| == 1 + |k.args|
  {
    var e := EmitUpTo(fname, comps, n - 1);
    if f !in e.facts {
      var c := comps[n - 1];
      assert Component(fname, c).Ok? && f in Component(fname, c).value;
      var k := FindKind(c.members[0].0, PtsKinds()).value;
      assert f == WritePts(k, fname, c.members[0].1).value;
    } else {
      EmittedFactShape(fname, comps, n - 1, f);
    }
  }

  /** A component keyed "dataflow", "output" or "input" writes nothing and
      raises nothing, whatever its value. */
  lemma SkippedWritesNothing(fname: string, key: string, v: Json, comps: seq<Json>)
    requires Skipped(key)
    ensures Component(fname, JObject([(key, v)])) == Ok([])
    ensures Emitted(fname, comps + [JObject([(key, v)])]) == Emitted(fname, comps)
  {
    var cs := comps + [JObject([(key, v)])];
    assert cs[..|comps|] == comps;
    FoldPrefix(Step(fname), comps, cs, |comps|);
    assert Step(fname)(cs[|comps|]) == Ok([]);
  }

  // ---------------------------------------------------------------------
  // The summary table
  // ---------------------------------------------------------------------

  /** The stems are pairwise distinct. */
  lemma StemsDistinct()
    ensures forall i, j :: 0 <= i < j < |Stems()| ==> Stems()[i].0 != Stems()[j].0
  {
  }

  /** The component keys are pairwise distinct, so the order in which the
      chain tests them does not matter: a key selects at most one kind. */
  lemma KindKeysDistinct()
    ensures forall i, j :: 0 <= i < j < |PtsKinds()| ==> PtsKinds()[i].key != PtsKinds()[j].key
  {
    StemsDistinct();
    forall i, j | 0 <= i < j < |PtsKinds()| ensures PtsKinds()[i].key != PtsKinds()[j].key {
      StemOfKey(Stems()[i].0, Stems()[i].1);
      StemOfKey(Stems()[j].0, Stems()[j].1);
    }
  }

  /** Whether a kind's key is "pts_" + some stem and its predicate
      signature::stem for the same stem. */
  predicate NamedByStem(k: PtsKind) {
    |k.key| >= 4 && k.key[..4] == "pts_" && k.pred == "signature::" + k.key[4..]
  }

  lemma StemOfKey(stem: string, args: seq<ArgKind>)
    ensures Kind(stem, args).key[4..] == stem && NamedByStem(Kind(stem, args))
  {
    var k := Kind(stem, args);
    assert k.key[..4] == "pts_";
    assert k.key[4..] == stem;
  }

  /** Each kind writes the predicate named after its key: "pts_" becomes
      "signature::". */
  lemma PredicateFromKey()
    ensures forall k :: k in PtsKinds() ==> NamedByStem(k)
  {
    forall i | 0 <= i < |PtsKinds()| ensures NamedByStem(PtsKinds()[i]) {
      StemOfKey(Stems()[i].0, Stems()[i].1);
    }
  }

  /** None of the skipped keys is a summary kind, so skipping them hides
      no kind. */
  lemma SkippedAreNotKinds(key: string)
    requires Skipped(key)
    ensures FindKind(key, PtsKinds()).None?
  {
    PredicateFromKey();
    forall i | 0 <= i < |PtsKinds()| ensures PtsKinds()[i].key != key {
      var k := PtsKinds()[i];
      assert k in PtsKinds();
      assert k.key[0] == k.key[..4][0] == 'p';
    }
  }

  /** There are seventeen kinds, none with more than two arguments. */
  lemma KindArities()
    ensures |PtsKinds()| == 17
    ensures forall k :: k in PtsKinds() ==> |k.args| <= 2
  {
  }

  // ---------------------------------------------------------------------
  // The signatures file
  // ---------------------------------------------------------------------

  /** One entry of the preprocessed file: the name, the pattern (the same
      text, compiled to a regular expression by the caller) and the
      function's list of components. */
  datatype SigEntry = SigEntry(name: string, pattern: string, sigs: seq<Json>)

  function BadFile(path: string): string {
    "Invalid signatures file: " + path
  }

  /** The message text grows by one clause per member visited, valid or
      not: the clauses of the first `n` members. */
  function Clauses(members: seq<(string, Json)>, n: nat): string
    requires n <= |members|
  {
    if n == 0 then "" else Clauses(members, n - 1) + Clause(members[n - 1].0)
  }

  function Clause(key: string): string {
    " had an invalid signature for " + key
  }

  lemma Assoc(a: string, b: string, c: string)
    ensures a + (b + c) == a + b + c
  {
  }

  /** The loop over the object's members, up to `n`. A member whose value
      is not an array raises the invalid-file message; otherwise its key
      becomes a `std::regex`, whose constructor throws `std::regex_error`
      (with the library's text `rx(key)`) when the key is not a valid
      ECMAScript pattern. */
  function Collect(rx: string -> Option<string>, path: string, members: seq<(string, Json)>, n: nat): Result<seq<SigEntry>>
    requires n <= |members|
  {
    if n == 0 then Ok([])
    else match Collect(rx, path, members, n - 1)
      case Err(m) => Err(m)
      case Ok(acc) =>
        if !members[n - 1].1.JArray? then Err(BadFile(path) + Clauses(members, n))
        else if rx(members[n - 1].0).Some? then Err(rx(members[n - 1].0).value)
        else Ok(acc + [SigEntry(members[n - 1].0, members[n - 1].0, members[n - 1].1.items)])
  }

  /** preprocess_signatures on the file at `path`, whose text the JSON
      parser turned into `parsed` (nothing when the text is not JSON). */
  function Preprocess(rx: string -> Option<string>, path: string, parsed: Option<Json>): Result<seq<SigEntry>> {
    if parsed.None? then Err(BadFile(path) + " was not valid JSON")
    else if !parsed.value.JObject? then Err(BadFile(path) + " was not a JSON object")
    else Collect(rx, path, parsed.value.members, |parsed.value.members|)
  }

  /** Whether member `m` is accepted: its value is an array and its key a
      pattern the regex constructor accepts. */
  predicate MemberOk(rx: string -> Option<string>, m: (string, Json)) {
    m.1.JArray? && rx(m.0).None?
  }

  /** Whether the members before `n` are all accepted. */
  predicate MembersOkUpTo(rx: string -> Option<string>, members: seq<(string, Json)>, n: nat)
    requires n <= |members|
  {
    forall i :: 0 <= i < n ==> MemberOk(rx, members[i])
  }

  lemma {:induction false} CollectOutcome(rx: string -> Option<string>, path: string, members: seq<(string, Json)>, n: nat)
    requires n <= |members|
    ensures Collect(rx, path, members, n).Ok? <==> MembersOkUpTo(rx, members, n)
    ensures Collect(rx, path, members, n).Ok? ==>
      |Collect(rx, path, members, n).value| == n
      && forall i :: 0 <= i < n ==>
           Collect(rx, path, members, n).value[i] == SigEntry(members[i].0, members[i].0, members[i].1.items)
    ensures forall j :: 0 <= j < n && MembersOkUpTo(rx, members, j) && !members[j].1.JArray? ==>
      Collect(rx, path, members, n) == Err(BadFile(path) + Clauses(members, j + 1))
    ensures forall j :: 0 <= j < n && MembersOkUpTo(rx, members, j) && members[j].1.JArray? && rx(members[j].0).Some? ==>
      Collect(rx, path, members, n) == Err(rx(members[j].0).value)
  {
    if n > 0 {
      CollectOutcome(rx, path, members, n - 1);
    }
  }

  /** preprocess_signatures succeeds exactly on a JSON object whose every
      value is an array and whose every key is a valid pattern, and then
      yields one entry per member, in the object's order, whose name and
      pattern are both the member's key. */
  lemma PreprocessOk(rx: string -> Option<string>, path: string, parsed: Option<Json>)
    ensures Preprocess(rx, path, parsed).Ok? <==>
      parsed.Some? && parsed.value.JObject? && MembersOkUpTo(rx, parsed.value.members, |parsed.value.members|)
    ensures Preprocess(rx, path, parsed).Ok? ==>
      var ms := parsed.value.members;
      |Preprocess(rx, path, parsed).value| == |ms|
      && forall i :: 0 <= i < |ms| ==> Preprocess(rx, path, parsed).value[i] == SigEntry(ms[i].0, ms[i].0, ms[i].1.items)
  {
    if parsed.Some? && parsed.value.JObject? {
      CollectOutcome(rx, path, parsed.value.members, |parsed.value.members|);
    }
  }

  /** The error for a member whose value is not an array, after accepted
      members only, names that member's key after the keys of every member
      visited before it. */
  lemma PreprocessError(rx: string -> Option<string>, path: string, ms: seq<(string, Json)>, j: nat)
    requires j < |ms| && MembersOkUpTo(rx, ms, j) && !ms[j].1.JArray?
    ensures Preprocess(rx, path, Some(JObject(ms))) == Err(BadFile(path) + Clauses(ms, j) + Clause(ms[j].0))
  {
    CollectOutcome(rx, path, ms, |ms|);
    assert Collect(rx, path, ms, |ms|) == Err(BadFile(path) + Clauses(ms, j + 1));
    Assoc(BadFile(path), Clauses(ms, j), Clause(ms[j].0));
  }

  /** A member whose value is an array but whose key the regex constructor
      rejects, after accepted members only, ends preprocess_signatures with
      that constructor's std::regex_error, not an invalid-file message. */
  lemma PreprocessRegexError(rx: string -> Option<string>, path: string, ms: seq<(string, Json)>, j: nat)
    requires j < |ms| && MembersOkUpTo(rx, ms, j) && ms[j].1.JArray? && rx(ms[j].0).Some?
    ensures Preprocess(rx, path, Some(JObject(ms))) == Err(rx(ms[j].0).value)
  {
    CollectOutcome(rx, path, ms, |ms|);
  }

  // ---------------------------------------------------------------------
  // The loops
  // ---------------------------------------------------------------------

  /** preprocess_signatures: the loop that appends one entry per member. */
  method PreprocessSignatures(rx: string -> Option<string>, path: string, parsed: Option<Json>) returns (r: Result<seq<SigEntry>>)
    ensures r == Preprocess(rx, path, parsed)
  {
    var msg := BadFile(path);
    if parsed.None? {
      return Err(msg + " was not valid JSON");
    }
    if !parsed.value.JObject? {
      return Err(msg + " was not a JSON object");
    }
    var members := parsed.value.members;
    var out: seq<SigEntry> := [];
    var i := 0;
    while i < |members|
      invariant i <= |members|
      invariant Collect(rx, path, members, i) == Ok(out)
      invariant msg == BadFile(path) + Clauses(members, i)
    {
      msg := msg + Clause(members[i].0);
      Assoc(BadFile(path), Clauses(members, i), Clause(members[i].0));
      if !members[i].1.JArray? {
        CollectFrom(rx, path, members, i + 1);
        return Err(msg);
      }
      var e := rx(members[i].0);
      if e.Some? {
        CollectFrom(rx, path, members, i + 1);
        return Err(e.value);
      }
      out := out + [SigEntry(members[i].0, members[i].0, members[i].1.items)];
      i := i + 1;
    }
    r := Ok(out);
  }

  /** Once the loop has failed, later members change nothing. */
  lemma {:induction false} CollectFrom(rx: string -> Option<string>, path: string, members: seq<(string, Json)>, n: nat)
    requires 0 < n <= |members| && Collect(rx, path, members, n).Err?
    ensures Collect(rx, path, members, |members|) == Collect(rx, path, members, n)
    decreases |members| - n
  {
    if n < |members| {
      CollectFrom(rx, path, members, n + 1);
    }
  }

  /** emit_signatures on the generator: the components in order, each
      writing its fact, until one is malformed. */
  method EmitSignatures(gen: FactGenerator, fname: string, comps: seq<Json>) returns (err: Option<string>)
    requires gen.Valid()
    modifies gen
    ensures gen.Valid() && gen.ctx == old(gen.ctx)
    ensures gen.St() == old(gen.St()).(facts := old(gen.facts) + Emitted(fname, comps).facts)
    ensures err == Emitted(fname, comps).err
  {
    var i := 0;
    while i < |comps|
      invariant i <= |comps|
      invariant gen.Valid() && gen.ctx == old(gen.ctx)
      invariant EmitUpTo(fname, comps, i).err.None?
      invariant gen.St() == old(gen.St()).(facts := old(gen.facts) + EmitUpTo(fname, comps, i).facts)
    {
      err := WriteComponent(gen, fname, comps[i]);
      if err.Some? {
        FoldError(Step(fname), comps, i);
        StopsAtFirstError(Step(fname), comps, i, |comps|);
        return;
      }
      assert old(gen.facts) + EmitUpTo(fname, comps, i + 1).facts
          == old(gen.facts) + EmitUpTo(fname, comps, i).facts + Component(fname, comps[i]).value;
      i := i + 1;
    }
    err := None;
  }

  /** One component on the generator. */
  method WriteComponent(gen: FactGenerator, fname: string, c: Json) returns (err: Option<string>)
    requires gen.Valid()
    modifies gen
    ensures gen.Valid() && gen.ctx == old(gen.ctx)
    ensures match Component(fname, c)
      case Ok(fs) => err.None? && gen.St() == old(gen.St()).(facts := old(gen.facts) + fs)
      case Err(m) => err == Some(m) && gen.St() == old(gen.St())
  {
    if !c.JObject? || |c.members| != 1 {
      return Some(InvalidSignature(fname));
    }
    var (key, value) := c.members[0];
    if key == "dataflow" || key == "output" || key == "input" {
      assert gen.facts == old(gen.facts) + [];
      return None;
    }
    var k := FindKind(key, PtsKinds());
    if k.None? {
      return Some(InvalidSignature(fname) + ": unknown signature type '" + key + "'");
    }
    err := WritePtsSignature(gen, k.value, fname, value);
  }

  /** write_pts_signature on the generator. */
  method WritePtsSignature(gen: FactGenerator, k: PtsKind, fname: string, v: Json) returns (err: Option<string>)
    requires gen.Valid()
    modifies gen
    ensures gen.Valid() && gen.ctx == old(gen.ctx)
    ensures match WritePts(k, fname, v)
      case Ok(f) => err.None? && gen.St() == Emit(old(gen.St()), f.pred, f.cols)
      case Err(m) => err == Some(m) && gen.St() == old(gen.St())
  {
    if !v.JArray? {
      return Some(ExpectsArray(k.key));
    }
    if |v.items| != |k.args| {
      return Some(WrongCount(k.key, |k.args|, |v.items|));
    }
    if |k.args| == 0 {
      gen.WriteFact(k.pred, ["@" + fname]);
      return None;
    }
    var args := ExtractMany(v.items, 0, k.args);
    if args.None? {
      return Some(WrongArgument);
    }
    gen.WriteFact(k.pred, ["@" + fname] + args.value);
    return None;
  }
}
