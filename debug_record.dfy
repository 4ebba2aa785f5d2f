// The debug-info processor: the memoised recorders that run the node
// writers, the order in which generateDebugInfo records the nodes the
// debug-info finder collected, and the association between local debug
// variables and the LLVM values that hold them.
//
// One cache from node to id is shared by every recorder kind. A recorder
// returns the cached id of a node it has seen; otherwise it computes the
// node's refmode, stores it in the cache and only then runs the node's
// writer, so a cycle through the node finds the id already there. The
// measure that makes this terminate is the number of graph nodes not yet
// cached.
module DebugRecord {
  import opened Common
  import opened Contexts
  import opened Refmodes
  import opened Generator
  import opened DebugNodes
  import Llvm
  import Constants

  /** What the recorders run on: the node graph, the writer of each
      recorder kind for a node id and the node's refmode, and the fact
      generator's writeConstant (recordConstant delegates to it). */
  datatype Env = Env(
    d: DiGraph,
    writer: (Recorder, NodeId, string) -> seq<Step>,
    constant: (GenState, Llvm.Value) -> (string, GenState))

  /** The processor over a graph, with the node writers of DebugNodes and
      the generator's writeConstant. */
  function Processor(d: DiGraph, g: Llvm.TypeGraph, h: Llvm.Host): Env {
    Env(d, (k: Recorder, id: NodeId, n: string) => Template(d, h, k, id, n), (gs: GenState, c: Llvm.Value) => Constants.WriteConstant(g, h, gs, c))
  }

  /** The processor's state: the generator's state and the node cache. */
  datatype DiState = DiState(gs: GenState, cache: map<NodeId, string>)

  /** From s to u the generator only appends facts, keeps its frames and
      leaves its variable cache alone. */
  ghost predicate Keeps(s: GenState, u: GenState) {
    s.facts <= u.facts && SameFrames(s.ctx, u.ctx) && u.vars == s.vars
  }

  /** The constant writer behaves as writeConstant does in this respect. */
  ghost predicate ConstantsKeep(e: Env) {
    forall gs: GenState, c: Llvm.Value :: Keeps(gs, e.constant(gs, c).1)
  }

  /** The constant writer is the generator's writeConstant. */
  ghost predicate WritesConstants(e: Env, g: Llvm.TypeGraph, h: Llvm.Host) {
    forall gs: GenState, c: Llvm.Value :: e.constant(gs, c) == Constants.WriteConstant(g, h, gs, c)
  }

  /** From s to u cache entries are only added, never changed. */
  ghost predicate Grows(s: DiState, u: DiState) {
    && (forall k :: k in s.cache ==> k in u.cache && u.cache[k] == s.cache[k])
    && Keeps(s.gs, u.gs)
  }

  /** Every cached id is its node's metadata refmode. */
  ghost predicate Sound(d: DiGraph, s: DiState) {
    WellFormed(s.gs.ctx)
    && forall k :: k in s.cache ==> s.cache[k] == NodeRefmode(s.gs.ctx, d.printed(k))
  }

  /** The graph nodes not cached yet. */
  function Uncached(d: DiGraph, cache: map<NodeId, string>): nat {
    |d.nodes.Keys - cache.Keys|
  }

  // ---------------------------------------------------------------------
  // The recorders
  // ---------------------------------------------------------------------

  /** di_recorder::record: the cached id, or the node's refmode, cached
      first and then written by the recorder's writer. */
  function Record(e: Env, s: DiState, k: Recorder, id: NodeId): (r: (string, DiState))
    requires ConstantsKeep(e) && WellFormed(s.gs.ctx)
    ensures WellFormed(r.1.gs.ctx) && Grows(s, r.1)
    ensures id in r.1.cache && r.1.cache[id] == r.0
    ensures Sound(e.d, s) ==> Sound(e.d, r.1)
    decreases Uncached(e.d, s.cache), 0, 0
  {
    if id in s.cache then (s.cache[id], s)
    else
      var s1 := CacheId(e.d, s, id);
      var n := s1.cache[id];
      if id !in e.d.nodes then (n, s1)
      else
        UncachedDrop(e.d, s.cache, id, n);
        var u := Run(e, s1, e.writer(k, id, n));
        GrowsTrans(s, s1, u);
        (n, u)
  }

  /** The cache entry a recorder adds before writing a node: the node's
      metadata refmode, in the current global context. */
  function CacheId(d: DiGraph, s: DiState, id: NodeId): (r: DiState)
    requires WellFormed(s.gs.ctx) && id !in s.cache
    ensures r.gs == s.gs && Grows(s, r)
    ensures r.cache.Keys == s.cache.Keys + {id}
    ensures r.cache[id] == NodeRefmode(s.gs.ctx, d.printed(id))
    ensures Sound(d, s) ==> Sound(d, r)
  {
    s.(cache := s.cache[id := NodeRefmode(s.gs.ctx, d.printed(id))])
  }

  /** The writer's steps, one after the other. */
  function Run(e: Env, s: DiState, steps: seq<Step>): (r: DiState)
    requires ConstantsKeep(e) && WellFormed(s.gs.ctx)
    ensures WellFormed(r.gs.ctx) && Grows(s, r)
    ensures Sound(e.d, s) ==> Sound(e.d, r)
    decreases Uncached(e.d, s.cache), |steps|, 2
  {
    if steps == [] then s
    else
      var s1 := Apply(e, s, steps[0]);
      UncachedMono(e.d, s.cache, s1.cache);
      var u := Run(e, s1, steps[1..]);
      GrowsTrans(s, s1, u);
      u
  }

  /** One step: the fact, after recording the child or writing the constant
      whose id is its last column. */
  function Apply(e: Env, s: DiState, st: Step): (r: DiState)
    requires ConstantsKeep(e) && WellFormed(s.gs.ctx)
    ensures WellFormed(r.gs.ctx) && Grows(s, r)
    ensures Sound(e.d, s) ==> Sound(e.d, r)
    decreases Uncached(e.d, s.cache), 0, 1
  {
    match st
    case Put(p, cols) => s.(gs := Emit(s.gs, PredName(p), cols))
    case PutChild(k, c, p, cols) =>
      var (cid, u) := Record(e, s, k, c);
      u.(gs := Emit(u.gs, PredName(p), cols + [cid]))
    case PutConstant(c, p, cols) =>
      var (cid, gs) := e.constant(s.gs, c);
      SameFramesKeep(e.d, s, s.(gs := gs));
      s.(gs := Emit(gs, PredName(p), cols + [cid]))
  }

  /** Recording each node of a list with one recorder, in order. */
  function RecordAll(e: Env, s: DiState, k: Recorder, ids: seq<NodeId>): (r: DiState)
    requires ConstantsKeep(e) && WellFormed(s.gs.ctx)
    ensures WellFormed(r.gs.ctx) && Grows(s, r)
    ensures Sound(e.d, s) ==> Sound(e.d, r)
    ensures forall id :: id in ids ==> id in r.cache
    decreases |ids|
  {
    if ids == [] then s
    else
      var s1 := Record(e, s, k, ids[0]).1;
      var u := RecordAll(e, s1, k, ids[1..]);
      GrowsTrans(s, s1, u);
      assert forall id :: id in ids ==> id == ids[0] || id in ids[1..];
      u
  }

  // ---------------------------------------------------------------------
  // generateDebugInfo and the local-variable associations
  // ---------------------------------------------------------------------

  /** What the debug-info finder collected, in its order: the variables of
      the global-variable expressions, the subprograms, the scopes, the
      imported entities of each compile unit, and the types. */
  datatype Finder = Finder(
    globalVariables: seq<NodeId>,
    subprograms: seq<NodeId>,
    scopes: seq<NodeId>,
    unitImports: seq<seq<NodeId>>,
    types: seq<NodeId>)

  /** The imported entities of each compile unit, unit by unit. */
  function RecordUnits(e: Env, s: DiState, units: seq<seq<NodeId>>): (r: DiState)
    requires ConstantsKeep(e) && WellFormed(s.gs.ctx)
    ensures WellFormed(r.gs.ctx) && Grows(s, r)
    ensures Sound(e.d, s) ==> Sound(e.d, r)
    ensures forall u, id :: u in units && id in u ==> id in r.cache
    decreases |units|
  {
    if units == [] then s
    else
      var s1 := RecordAll(e, s, ImportedEntityR, units[0]);
      var r := RecordUnits(e, s1, units[1..]);
      GrowsTrans(s, s1, r);
      assert forall u :: u in units ==> u == units[0] || u in units[1..];
      r
  }

  /** The association fact of one declared local variable: its node's id
      and the refmode of the value that holds it. */
  function AssocPred(): string {
    PredName(Pred(DILocalVar, Variable))
  }

  /** write_local_var_assocs, first loop: each entry of the multimap, in
      key order, records its variable node and writes the association. */
  function Assocs(e: Env, s: DiState, entries: seq<(NodeId, string)>): (r: DiState)
    requires ConstantsKeep(e) && WellFormed(s.gs.ctx)
    ensures WellFormed(r.gs.ctx) && Grows(s, r)
    ensures Sound(e.d, s) ==> Sound(e.d, r)
    decreases |entries|
  {
    if entries == [] then s
    else
      var (nid, s1) := Record(e, s, VariableR, entries[0].0);
      var s2 := s1.(gs := Emit(s1.gs, AssocPred(), [nid, entries[0].1]));
      var r := Assocs(e, s2, entries[1..]);
      GrowsTrans(s, s1, s2);
      GrowsTrans(s, s2, r);
      r
  }

  /** write_local_var_assocs: the associations, then the variables whose
      address was undef, recorded without an association. */
  function WriteAssocs(e: Env, s: DiState, entries: seq<(NodeId, string)>, undef: seq<NodeId>): (r: DiState)
    requires ConstantsKeep(e) && WellFormed(s.gs.ctx)
    ensures WellFormed(r.gs.ctx) && Grows(s, r)
    ensures Sound(e.d, s) ==> Sound(e.d, r)
  {
    var s1 := Assocs(e, s, entries);
    var r := RecordAll(e, s1, VariableR, undef);
    GrowsTrans(s, s1, r);
    r
  }

  /** generateDebugInfo: global variables, subprograms, scopes, imported
      entities per compile unit, types, each through its recorder, and the
      local-variable associations last. */
  function Generate(e: Env, s: DiState, f: Finder, entries: seq<(NodeId, string)>, undef: seq<NodeId>): (r: DiState)
    requires ConstantsKeep(e) && WellFormed(s.gs.ctx)
    ensures WellFormed(r.gs.ctx) && Grows(s, r)
    ensures Sound(e.d, s) ==> Sound(e.d, r)
  {
    var s1 := RecordAll(e, s, VariableR, f.globalVariables);
    var s2 := RecordAll(e, s1, SubprogramR, f.subprograms);
    var s3 := RecordAll(e, s2, ScopeR, f.scopes);
    var s4 := RecordUnits(e, s3, f.unitImports);
    var s5 := RecordAll(e, s4, TypeR, f.types);
    var r := WriteAssocs(e, s5, entries, undef);
    GrowsTrans(s, s1, s2);
    GrowsTrans(s, s2, s3);
    GrowsTrans(s, s3, s4);
    GrowsTrans(s, s4, s5);
    GrowsTrans(s, s5, r);
    r
  }

  // ---------------------------------------------------------------------
  // The multimap of local variables
  // ---------------------------------------------------------------------

  /** The multimap's entries in iteration order: keys never decrease. */
  predicate SortedKeys(es: seq<(NodeId, string)>) {
    forall i, j :: 0 <= i < j < |es| ==> es[i].0 <= es[j].0
  }

  /** Where the multimap inserts a key: after every entry whose key is not
      greater. */
  function UpperBound(es: seq<(NodeId, string)>, key: NodeId): (p: nat)
    requires SortedKeys(es)
    ensures p <= |es|
    ensures forall i :: 0 <= i < p ==> es[i].0 <= key
    ensures forall i :: p <= i < |es| ==> key < es[i].0
  {
    if es == [] || key < es[0].0 then 0
    else 1 + UpperBound(es[1..], key)
  }

  /** multimap::insert: the entry goes after all entries with a key not
      greater than its own, so entries with equal keys keep their order of
      insertion. */
  function InsertEntry(es: seq<(NodeId, string)>, x: (NodeId, string)): (r: seq<(NodeId, string)>)
    requires SortedKeys(es)
  {
    var p := UpperBound(es, x.0);
    es[..p] + [x] + es[p..]
  }

  // ---------------------------------------------------------------------
  // Properties
  // ---------------------------------------------------------------------

  /** The fact a step stands for is in u: a child's fact carries the id the
      cache holds for the child, a constant's fact some id. */
  ghost predicate Shows(u: DiState, st: Step) {
    match st
    case Put(p, cols) => Fact(PredName(p), cols) in u.gs.facts
    case PutChild(_, c, p, cols) => c in u.cache && Fact(PredName(p), cols + [u.cache[c]]) in u.gs.facts
    case PutConstant(_, p, cols) => exists cid :: Fact(PredName(p), cols + [cid]) in u.gs.facts
  }

  lemma PrefixIn(a: seq<Fact>, b: seq<Fact>, x: Fact)
    requires a <= b && x in a
    ensures x in b
  {
    var i :| 0 <= i < |a| && a[i] == x;
    assert b[i] == x;
  }

  /** What a step shows stays shown as the state grows. */
  lemma ShowsMono(s: DiState, u: DiState, st: Step)
    requires Shows(s, st) && Grows(s, u)
    ensures Shows(u, st)
  {
    match st
    case Put(p, cols) =>
      PrefixIn(s.gs.facts, u.gs.facts, Fact(PredName(p), cols));
    case PutChild(_, c, p, cols) =>
      PrefixIn(s.gs.facts, u.gs.facts, Fact(PredName(p), cols + [s.cache[c]]));
    case PutConstant(_, p, cols) =>
      var cid :| Fact(PredName(p), cols + [cid]) in s.gs.facts;
      PrefixIn(s.gs.facts, u.gs.facts, Fact(PredName(p), cols + [cid]));
  }

  /** Applying a step writes its fact. */
  lemma ApplyShows(e: Env, s: DiState, st: Step)
    requires ConstantsKeep(e) && WellFormed(s.gs.ctx)
    ensures Shows(Apply(e, s, st), st)
  {
    match st
    case Put(p, cols) =>
    case PutChild(k, c, p, cols) =>
    case PutConstant(c, p, cols) =>
      var (cid, gs) := e.constant(s.gs, c);
      var u := Apply(e, s, st);
      assert u.gs.facts[|u.gs.facts| - 1] == Fact(PredName(p), cols + [cid]);
  }

  /** Running a writer writes the fact of every one of its steps. */
  lemma {:induction false} RunShows(e: Env, s: DiState, steps: seq<Step>)
    requires ConstantsKeep(e) && WellFormed(s.gs.ctx)
    ensures forall st :: st in steps ==> Shows(Run(e, s, steps), st)
    decreases |steps|
  {
    if steps != [] {
      var s1 := Apply(e, s, steps[0]);
      var r := Run(e, s, steps);
      assert r == Run(e, s1, steps[1..]);
      ApplyShows(e, s, steps[0]);
      RunShows(e, s1, steps[1..]);
      ShowsMono(s1, r, steps[0]);
      assert forall st :: st in steps ==> st == steps[0] || st in steps[1..];
    }
  }

  /** Recording a node of the graph that is not cached yet writes every
      step of its recorder's writer, with the node's new id. */
  lemma RecordWrites(e: Env, s: DiState, k: Recorder, id: NodeId)
    requires ConstantsKeep(e) && WellFormed(s.gs.ctx)
    requires id !in s.cache && id in e.d.nodes
    ensures var r := Record(e, s, k, id);
      r.0 == NodeRefmode(s.gs.ctx, e.d.printed(id))
      && forall st :: st in e.writer(k, id, r.0) ==> Shows(r.1, st)
  {
    var s1 := CacheId(e.d, s, id);
    RunShows(e, s1, e.writer(k, id, s1.cache[id]));
  }

  /** Once the cache is sound, a recorder returns the node's metadata
      refmode, whether the node was cached before or not. */
  lemma RecordId(e: Env, s: DiState, k: Recorder, id: NodeId)
    requires ConstantsKeep(e) && Sound(e.d, s)
    ensures Record(e, s, k, id).0 == NodeRefmode(s.gs.ctx, e.d.printed(id))
  {
    var r := Record(e, s, k, id);
    assert r.1.cache[id] == NodeRefmode(r.1.gs.ctx, e.d.printed(id));
    assert r.1.gs.ctx.contexts[0].prefix == s.gs.ctx.contexts[0].prefix;
  }

  /** A second record of a node, by any recorder, finds the id the first
      one cached and writes nothing. */
  lemma RecordOnce(e: Env, s: DiState, k1: Recorder, k2: Recorder, id: NodeId)
    requires ConstantsKeep(e) && WellFormed(s.gs.ctx)
    ensures var r := Record(e, s, k1, id);
      Record(e, r.1, k2, id) == r
  {
  }

  /** In the processor, recording a node of the graph its recorder takes
      writes the node's id fact first-hand, in the node's own group. */
  lemma RecordsIdFact(d: DiGraph, g: Llvm.TypeGraph, h: Llvm.Host, s: DiState, k: Recorder, id: NodeId)
    requires WellFormed(s.gs.ctx) && id !in s.cache && id in d.nodes
    requires Accepts(k, d.nodes[id]) && FirstGroup(d.nodes[id]).Some?
    ensures ConstantsKeep(Processor(d, g, h))
    ensures var r := Record(Processor(d, g, h), s, k, id);
      Fact(PredName(Pred(FirstGroup(d.nodes[id]).value, Id)), [r.0]) in r.1.gs.facts
  {
    ProcessorKeeps(d, g, h);
    var e := Processor(d, g, h);
    var r := Record(e, s, k, id);
    RecordWrites(e, s, k, id);
    WriterShape(d, h, k, d.nodes[id], r.0);
    var w := e.writer(k, id, r.0);
    assert w == Writer(d, h, k, d.nodes[id], r.0);
    assert Shows(r.1, w[0]);
  }

  /** After generateDebugInfo every node the finder listed, and every
      declared local variable, has its id in the cache. */
  lemma GenerateCaches(e: Env, s: DiState, f: Finder, entries: seq<(NodeId, string)>, undef: seq<NodeId>)
    requires ConstantsKeep(e) && WellFormed(s.gs.ctx)
    ensures var r := Generate(e, s, f, entries, undef);
      && (forall id :: id in f.globalVariables || id in f.subprograms || id in f.scopes || id in f.types ==> id in r.cache)
      && (forall u, id :: u in f.unitImports && id in u ==> id in r.cache)
      && (forall id :: id in undef ==> id in r.cache)
  {
  }

  /** Every entry of the multimap gets its association fact, with the id
      the cache holds for its variable node. */
  lemma {:induction false} AssocsWritten(e: Env, s: DiState, entries: seq<(NodeId, string)>)
    requires ConstantsKeep(e) && WellFormed(s.gs.ctx)
    ensures var r := Assocs(e, s, entries);
      forall x :: x in entries ==> x.0 in r.cache && Fact(AssocPred(), [r.cache[x.0], x.1]) in r.gs.facts
    decreases |entries|
  {
    if entries != [] {
      var (nid, s1) := Record(e, s, VariableR, entries[0].0);
      var s2 := s1.(gs := Emit(s1.gs, AssocPred(), [nid, entries[0].1]));
      var r := Assocs(e, s2, entries[1..]);
      assert r == Assocs(e, s, entries);
      AssocsWritten(e, s2, entries[1..]);
      assert s2.gs.facts[|s2.gs.facts| - 1] == Fact(AssocPred(), [nid, entries[0].1]);
      PrefixIn(s2.gs.facts, r.gs.facts, Fact(AssocPred(), [nid, entries[0].1]));
      assert forall x :: x in entries ==> x == entries[0] || x in entries[1..];
    }
  }

  /** Inserting keeps the entries sorted, adds exactly the new entry, puts
      it after every entry with the same key and before every entry with a
      greater one, and leaves the other entries in their order. */
  lemma InsertEntryShape(es: seq<(NodeId, string)>, x: (NodeId, string))
    requires SortedKeys(es)
    ensures var r := InsertEntry(es, x); var p := UpperBound(es, x.0);
      && SortedKeys(r)
      && multiset(r) == multiset(es) + multiset{x}
      && r[p] == x && r[..p] + r[p + 1..] == es
      && (forall i :: 0 <= i < p ==> r[i].0 <= x.0)
      && (forall i :: p < i < |r| ==> x.0 < r[i].0)
  {
    var r := InsertEntry(es, x);
    var p := UpperBound(es, x.0);
    assert es == es[..p] + es[p..];
    assert r[..p] == es[..p] && r[p + 1..] == es[p..];
    InsertEntrySorted(es, x);
  }

  /** Inserting after every entry with a key not greater keeps the keys
      sorted. */
  lemma InsertEntrySorted(es: seq<(NodeId, string)>, x: (NodeId, string))
    requires SortedKeys(es)
    ensures SortedKeys(InsertEntry(es, x))
  {
    var r := InsertEntry(es, x);
    var p := UpperBound(es, x.0);
    forall i, j | 0 <= i < j < |r|
      ensures r[i].0 <= r[j].0
    {
      if j < p {
        assert r[i] == es[i] && r[j] == es[j];
      } else if i > p {
        assert r[i] == es[i - 1] && r[j] == es[j - 1];
      } else if i == p {
        assert r[j] == es[j - 1];
      } else {
        assert r[i] == es[i];
        assert j == p || r[j] == es[j - 1];
      }
    }
  }

  // ---------------------------------------------------------------------
  // The processor object
  // ---------------------------------------------------------------------

  /** DebugInfoProcessor::Impl over the fact generator: the node cache, the
      multimap from local variable node to the refmode of the value holding
      it, and the local variables declared at an undef address. */
  class DebugInfoProcessor {
    const gen: FactGenerator
    /** The recorders' environment: the graph and the generator's writers. */
    const env: Env
    var nodeIds: map<NodeId, string>
    var localVars: seq<(NodeId, string)>
    var undefVars: seq<NodeId>

    constructor (gen: FactGenerator, d: DiGraph)
      requires gen.Valid()
      ensures Valid() && Linked() && this.gen == gen && env == Processor(d, gen.graph, gen.host)
      ensures nodeIds == map[] && localVars == [] && undefVars == []
    {
      this.gen := gen;
      env := Processor(d, gen.graph, gen.host);
      nodeIds := map[];
      localVars := [];
      undefVars := [];
      new;
      ProcessorKeeps(d, gen.graph, gen.host);
    }

    function St(): DiState
      requires gen.ctx != null
      reads this, gen, gen.ctx
    {
      DiState(gen.St(), nodeIds)
    }

    /** The generator is valid and the multimap is in key order. That every
        cached id is its node's refmode is a property of the recorders'
        specification (Sound), which the methods follow step by step. */
    ghost predicate Valid()
      reads this, gen, gen.ctx
    {
      gen.Valid() && SortedKeys(localVars)
    }

    /** The environment keeps the generator's frames and its constant
        writer is the generator's writeConstant. */
    ghost predicate Linked() {
      ConstantsKeep(env) && WritesConstants(env, gen.graph, gen.host)
    }

    /** di_recorder::record. */
    method RecordM(k: Recorder, id: NodeId) returns (r: string)
      requires Valid() && Linked()
      modifies this, gen, gen.ctx
      ensures Valid() && gen.ctx == old(gen.ctx)
      ensures localVars == old(localVars) && undefVars == old(undefVars)
      ensures (r, St()) == Record(env, old(St()), k, id)
      decreases Uncached(env.d, nodeIds), 0, 0
    {
      if id in nodeIds {
        r := nodeIds[id];
        return;
      }
      r := gen.NodeRefmode(env.d.printed(id));
      nodeIds := nodeIds[id := r];
      if id in env.d.nodes {
        UncachedDrop(env.d, old(nodeIds), id, r);
        RunM(env.writer(k, id, r));
      }
    }

    /** A writer's steps, in order. */
    method RunM(steps: seq<Step>)
      requires Valid() && Linked()
      modifies this, gen, gen.ctx
      ensures Valid() && gen.ctx == old(gen.ctx)
      ensures localVars == old(localVars) && undefVars == old(undefVars)
      ensures St() == Run(env, old(St()), steps)
      decreases Uncached(env.d, nodeIds), |steps|, 2
    {
      var i := 0;
      while i < |steps|
        invariant i <= |steps|
        invariant Valid() && gen.ctx == old(gen.ctx)
        invariant localVars == old(localVars) && undefVars == old(undefVars)
        invariant old(nodeIds).Keys <= nodeIds.Keys
        invariant Run(env, old(St()), steps) == Run(env, St(), steps[i..])
      {
        UncachedMono(env.d, old(nodeIds), nodeIds);
        assert steps[i..][1..] == steps[i + 1..];
        ApplyM(steps[i]);
        i := i + 1;
      }
    }

    /** One step of a writer. */
    method ApplyM(st: Step)
      requires Valid() && Linked()
      modifies this, gen, gen.ctx
      ensures Valid() && gen.ctx == old(gen.ctx)
      ensures localVars == old(localVars) && undefVars == old(undefVars)
      ensures St() == Apply(env, old(St()), st)
      decreases Uncached(env.d, nodeIds), 0, 1
    {
      match st
      case Put(p, cols) =>
        gen.WriteFact(PredName(p), cols);
      case PutChild(k, c, p, cols) =>
        var cid := RecordM(k, c);
        gen.WriteFact(PredName(p), cols + [cid]);
      case PutConstant(c, p, cols) =>
        var cid := Constants.WriteConstantM(gen, c);
        gen.WriteFact(PredName(p), cols + [cid]);
    }

    /** One recorder over a list of nodes. */
    method RecordAllM(k: Recorder, ids: seq<NodeId>)
      requires Valid() && Linked()
      modifies this, gen, gen.ctx
      ensures Valid() && gen.ctx == old(gen.ctx)
      ensures localVars == old(localVars) && undefVars == old(undefVars)
      ensures St() == RecordAll(env, old(St()), k, ids)
    {
      var i := 0;
      while i < |ids|
        invariant i <= |ids|
        invariant Valid() && gen.ctx == old(gen.ctx)
        invariant localVars == old(localVars) && undefVars == old(undefVars)
        invariant RecordAll(env, old(St()), k, ids) == RecordAll(env, St(), k, ids[i..])
      {
        assert ids[i..][1..] == ids[i + 1..];
        var _ := RecordM(k, ids[i]);
        i := i + 1;
      }
    }

    /** The imported entities of each compile unit. */
    method RecordUnitsM(units: seq<seq<NodeId>>)
      requires Valid() && Linked()
      modifies this, gen, gen.ctx
      ensures Valid() && gen.ctx == old(gen.ctx)
      ensures localVars == old(localVars) && undefVars == old(undefVars)
      ensures St() == RecordUnits(env, old(St()), units)
    {
      var j := 0;
      while j < |units|
        invariant j <= |units|
        invariant Valid() && gen.ctx == old(gen.ctx)
        invariant localVars == old(localVars) && undefVars == old(undefVars)
        invariant RecordUnits(env, old(St()), units) == RecordUnits(env, St(), units[j..])
      {
        assert units[j..][1..] == units[j + 1..];
        RecordAllM(ImportedEntityR, units[j]);
        j := j + 1;
      }
    }

    /** generateDebugInfo. */
    method GenerateDebugInfo(f: Finder)
      requires Valid() && Linked()
      modifies this, gen, gen.ctx
      ensures Valid() && gen.ctx == old(gen.ctx)
      ensures localVars == old(localVars) && undefVars == old(undefVars)
      ensures St() == Generate(env, old(St()), f, localVars, undefVars)
    {
      RecordAllM(VariableR, f.globalVariables);
      RecordAllM(SubprogramR, f.subprograms);
      RecordAllM(ScopeR, f.scopes);
      RecordUnitsM(f.unitImports);
      RecordAllM(TypeR, f.types);
      WriteLocalVarAssocs();
    }

    /** record_local_var_assoc, for a declare intrinsic with the given
        variable node and address. */
    method RecordLocalVarAssoc(variable: Option<NodeId>, address: Llvm.Value)
      requires Valid()
      modifies this, gen.ctx
      ensures Valid() && gen.ctx == old(gen.ctx) && nodeIds == old(nodeIds)
      ensures variable.None? ==>
        gen.St() == old(gen.St()) && localVars == old(localVars) && undefVars == old(undefVars)
      ensures variable.Some? && Llvm.IsUndef(address) ==>
        gen.St() == old(gen.St()) && localVars == old(localVars) && undefVars == old(undefVars) + [variable.value]
      ensures variable.Some? && !Llvm.IsUndef(address) ==>
        var (ref, gs) := ValueRef(gen.graph, old(gen.St()), address);
        gen.St() == gs && localVars == InsertEntry(old(localVars), (variable.value, ref)) && undefVars == old(undefVars)
    {
      if variable.None? {
        return;
      }
      if Llvm.IsUndef(address) {
        undefVars := undefVars + [variable.value];
        return;
      }
      var ref := gen.ValueRefmode(address);
      InsertEntryShape(localVars, (variable.value, ref));
      localVars := InsertEntry(localVars, (variable.value, ref));
    }

    /** write_local_var_assocs. */
    method WriteLocalVarAssocs()
      requires Valid() && Linked()
      modifies this, gen, gen.ctx
      ensures Valid() && gen.ctx == old(gen.ctx)
      ensures localVars == old(localVars) && undefVars == old(undefVars)
      ensures St() == WriteAssocs(env, old(St()), localVars, undefVars)
    {
      AssocsM();
      RecordAllM(VariableR, undefVars);
    }

    /** The first loop of write_local_var_assocs. */
    method AssocsM()
      requires Valid() && Linked()
      modifies this, gen, gen.ctx
      ensures Valid() && gen.ctx == old(gen.ctx)
      ensures localVars == old(localVars) && undefVars == old(undefVars)
      ensures St() == Assocs(env, old(St()), localVars)
    {
      var i := 0;
      while i < |localVars|
        invariant i <= |localVars|
        invariant Valid() && gen.ctx == old(gen.ctx)
        invariant localVars == old(localVars) && undefVars == old(undefVars)
        invariant Assocs(env, old(St()), localVars) == Assocs(env, St(), localVars[i..])
      {
        assert localVars[i..][1..] == localVars[i + 1..];
        var (v, varId) := localVars[i];
        var nodeId := RecordM(VariableR, v);
        gen.WriteFact(AssocPred(), [nodeId, varId]);
        i := i + 1;
      }
    }
  }

  // ---------------------------------------------------------------------
  // Helpers for the measure and for Grows
  // ---------------------------------------------------------------------

  lemma ProcessorKeeps(d: DiGraph, g: Llvm.TypeGraph, h: Llvm.Host)
    ensures ConstantsKeep(Processor(d, g, h))
  {
    var e := Processor(d, g, h);
    forall gs: GenState, c: Llvm.Value
      ensures Keeps(gs, e.constant(gs, c).1)
    {
      ConstantKeeps(g, h, gs, c);
    }
  }

  lemma ConstantKeeps(g: Llvm.TypeGraph, h: Llvm.Host, gs: GenState, c: Llvm.Value)
    ensures Keeps(gs, Constants.WriteConstant(g, h, gs, c).1)
  {
    Constants.WriteConstantAdvance(g, h, gs, c);
  }

  lemma SubsetCard(x: set<NodeId>, y: set<NodeId>)
    requires x <= y
    ensures |x| <= |y|
  {
    if x != {} {
      var e :| e in x;
      SubsetCard(x - {e}, y - {e});
    }
  }

  lemma UncachedMono(d: DiGraph, c1: map<NodeId, string>, c2: map<NodeId, string>)
    requires c1.Keys <= c2.Keys
    ensures Uncached(d, c2) <= Uncached(d, c1)
  {
    SubsetCard(d.nodes.Keys - c2.Keys, d.nodes.Keys - c1.Keys);
  }

  lemma UncachedDrop(d: DiGraph, c: map<NodeId, string>, id: NodeId, n: string)
    requires id in d.nodes && id !in c
    ensures Uncached(d, c[id := n]) < Uncached(d, c)
  {
    var before, after := d.nodes.Keys - c.Keys, d.nodes.Keys - c[id := n].Keys;
    assert before == after + {id};
  }

  lemma GrowsTrans(s: DiState, t: DiState, u: DiState)
    requires Grows(s, t) && Grows(t, u)
    ensures Grows(s, u)
  {
    Constants.SameFramesTrans(s.gs.ctx, t.gs.ctx, u.gs.ctx);
  }

  /** Same frames keep the state well formed and every node refmode. */
  lemma SameFramesKeep(d: DiGraph, s: DiState, u: DiState)
    requires WellFormed(s.gs.ctx) && SameFrames(s.gs.ctx, u.gs.ctx) && u.cache == s.cache
    ensures WellFormed(u.gs.ctx)
    ensures Sound(d, s) ==> Sound(d, u)
  {
    assert s.gs.ctx.contexts[0].prefix == u.gs.ctx.contexts[0].prefix;
  }
}
