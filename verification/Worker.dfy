/** The worker's own re-validation of a program, and its compile loop over dependency waves.

    What an object is made of is left to MeshVertices and MeshFaces; here it is only whether
    the object carries a mesh, which is what arrays, booleans and modifiers demand, and
    whether that mesh is empty, which booleans refuse. The meshes that the worker builds itself
    are not empty (MeshCompiler.SurfaceNotEmpty); which differences and intersections the
    solver leaves empty is not known here, and every answer is allowed for. */
module Worker {
  import opened Graphs
  import opened Waves
  import opened Program
  import opened Validator

  datatype CompileError =
    | ClosedProgramInvalid
    | UnresolvedGraph
    | MeshSourceRequired(node: string)
    | EmptyMesh(node: string)

  datatype Outcome<+T> = Done(value: T) | Stopped(error: CompileError)

  datatype ObjectType = MeshObject | CurveObject | EmptyObject | ImportedObject

  datatype CompiledObject = CompiledObject(kind: ObjectType, empty: bool)

  type Objects = map<string, CompiledObject>

  // ----- re-validation

  /** The references of a node, parent included. */
  function AllReferences(n: Node): set<string> { NodeDependencies(n.kind) + ParentSet(n) }

  predicate KindAllowed(version2: bool, k: Kind) { version2 || Version1Kind(k) }

  /** The checks of the worker, as one condition. */
  predicate WorkerAccepts(p: GeometryProgram) {
    && 1 <= |p.nodes| <= 512
    && UniqueIds(p.nodes)
    && (forall n :: n in p.nodes ==> n.id != "" && KindAllowed(p.version2, n.kind))
    && (!p.version2 ==> p.anchors == [] && p.connectors == [] && p.groups == [] && p.construction == [])
    && (forall n :: n in p.nodes ==> AllReferences(n) <= Ids(p.nodes) && n.id !in AllReferences(n))
    && ConstructionOk(p)
    && AnchorsOk(p)
  }

  /** The worker's first pass: identifiers accumulate in a set as the nodes are read. */
  method ReadIds(p: GeometryProgram) returns (r: Option<set<string>>)
    ensures r.Some? <==> UniqueIds(p.nodes) && forall n :: n in p.nodes ==> n.id != "" && KindAllowed(p.version2, n.kind)
    ensures r.Some? ==> r.value == Ids(p.nodes)
  {
    var ids: set<string> := {};
    for i := 0 to |p.nodes|
      invariant ids == Ids(p.nodes[..i])
      invariant UniqueIds(p.nodes[..i])
      invariant forall n :: n in p.nodes[..i] ==> n.id != "" && KindAllowed(p.version2, n.kind)
    {
      var n := p.nodes[i];
      assert p.nodes[..i + 1] == p.nodes[..i] + [n];
      if n.id == "" || n.id in ids {
        ghost var again := if n.id == "" then n else var m :| m in p.nodes[..i] && m.id == n.id; m;
        assert n in p.nodes;
        return None;
      }
      if !KindAllowed(p.version2, n.kind) {
        assert n in p.nodes;
        return None;
      }
      ids := ids + {n.id};
    }
    assert p.nodes[..|p.nodes|] == p.nodes;
    return Some(ids);
  }

  method ValidateClosedProgram(p: GeometryProgram) returns (ok: bool)
    ensures ok <==> WorkerAccepts(p)
  {
    if !(1 <= |p.nodes| <= 512) {
      return false;
    }
    var read := ReadIds(p);
    if read.None? {
      return false;
    }
    var ids := read.value;
    if !p.version2 && (p.anchors != [] || p.connectors != [] || p.groups != [] || p.construction != []) {
      return false;
    }
    if !forall n :: n in p.nodes ==> AllReferences(n) <= ids && n.id !in AllReferences(n) {
      return false;
    }
    return ConstructionOk(p) && AnchorsOk(p);
  }

  lemma {:induction false} ReferencesKnown(n: Node, nodes: Nodes, known: set<string>, materials: seq<string>)
    requires AttachmentsOk(n, known, materials) && SourcesOk(n, nodes) && nodes.Keys == known
    ensures AllReferences(n) <= known && n.id !in AllReferences(n)
  {
  }

  lemma {:induction false} KindsAllowed(p: GeometryProgram)
    requires ExactIsAlone(p) && VersionOk(p)
    ensures forall n :: n in p.nodes ==> KindAllowed(p.version2, n.kind)
  {
  }

  /** The worker refuses nothing that the contract has accepted. */
  lemma {:induction false} ValidatedIsClosed(p: GeometryProgram)
    requires ProgramFieldsOk(p) && StructureOk(p)
    ensures WorkerAccepts(p)
  {
    ByIdHolds(p.nodes);
    KindsAllowed(p);
    var nodes := ById(p.nodes);
    forall n | n in p.nodes ensures AllReferences(n) <= Ids(p.nodes) && n.id !in AllReferences(n) {
      ReferencesKnown(n, nodes, Ids(p.nodes), p.materials);
    }
    forall n | n in p.nodes ensures n.id != "" {
      assert NodeOk(n);
    }
  }

  lemma {:induction false} ClosedReferences(p: GeometryProgram)
    requires WorkerAccepts(p)
    ensures Closed(DependencyGraph(ById(p.nodes)))
  {
    ByIdHolds(p.nodes);
    var nodes := ById(p.nodes);
    forall id | id in nodes ensures DependencyGraph(nodes)[id] <= nodes.Keys {
      assert AllReferences(nodes[id]) <= Ids(p.nodes);
    }
  }

  // ----- object types

  /** The sources that must be meshes. */
  function MeshSources(k: Kind): set<string> {
    if k.Array? || k.Modified? || k.Boolean? then NodeDependencies(k) else {}
  }

  /** What a node compiles to, from what its sources are. Copies and unions of meshes that are
      not empty are not empty; a difference or intersection is if it is listed in `blank`. */
  function ObjectOf(id: string, k: Kind, objects: Objects, blank: set<string>): CompiledObject
    requires NodeDependencies(k) <= objects.Keys
  {
    match k
    case Instance(source) => objects[source]
    case Array(source, _, _) => CompiledObject(MeshObject, objects[source].empty)
    case Modified(source, _) => CompiledObject(MeshObject, objects[source].empty)
    case Boolean(_, _, operation) => CompiledObject(MeshObject, !operation.Union? && id in blank)
    case Curve(_, _) => CompiledObject(CurveObject, false)
    case Profile(_, _) => CompiledObject(EmptyObject, false)
    case ExactAsset(_) => CompiledObject(ImportedObject, false)
    case _ => CompiledObject(MeshObject, false)
  }

  /** The type that every node ends up with. */
  function TypeOf(id: string, nodes: Nodes): ObjectType
    requires Grounded(nodes) && id in nodes
    decreases Rank(DependencyGraph(nodes))[id]
  {
    match nodes[id].kind
    case Instance(source) =>
      assert source in DependencyGraph(nodes)[id];
      TypeOf(source, nodes)
    case Curve(_, _) => CurveObject
    case Profile(_, _) => EmptyObject
    case ExactAsset(_) => ImportedObject
    case _ => MeshObject
  }

  ghost predicate DemandsMet(id: string, nodes: Nodes)
    requires Grounded(nodes) && id in nodes
  {
    forall s :: s in MeshSources(nodes[id].kind) ==> s in nodes && TypeOf(s, nodes) == MeshObject
  }

  /** Wherever a mesh is demanded, a mesh is what there will be. */
  ghost predicate MeshDemandsMet(nodes: Nodes)
    requires Grounded(nodes)
  {
    forall id :: id in nodes ==> DemandsMet(id, nodes)
  }

  lemma {:induction false} SourceFirst(id: string, nodes: Nodes)
    requires Grounded(nodes) && id in nodes
    requires nodes[id].kind.Instance? || nodes[id].kind.Array? || nodes[id].kind.Modified?
    ensures nodes[id].kind.source in NodeDependencies(nodes[id].kind) && nodes[id].kind.source in nodes
    ensures Rank(DependencyGraph(nodes))[nodes[id].kind.source] < Rank(DependencyGraph(nodes))[id]
  {
    CopyDependsOn(nodes[id].kind);
    assert nodes[id].kind.source in DependencyGraph(nodes)[id];
  }

  lemma CopyDependsOn(k: Kind)
    requires k.Instance? || k.Array? || k.Modified?
    ensures k.source in NodeDependencies(k)
  {
  }

  /** Whether a node's mesh ends up empty. */
  function EmptyOf(id: string, nodes: Nodes, blank: set<string>): bool
    requires Grounded(nodes) && id in nodes
    decreases Rank(DependencyGraph(nodes))[id]
  {
    var k := nodes[id].kind;
    if k.Boolean? then !k.operation.Union? && id in blank
    else if k.Instance? || k.Array? || k.Modified? then
      SourceFirst(id, nodes);
      EmptyOf(k.source, nodes, blank)
    else false
  }

  ghost predicate OperandsHold(id: string, nodes: Nodes, blank: set<string>)
    requires Grounded(nodes) && id in nodes
  {
    nodes[id].kind.Boolean? ==> forall s :: s in NodeDependencies(nodes[id].kind) ==> s in nodes && !EmptyOf(s, nodes, blank)
  }

  /** No boolean has an empty operand. */
  ghost predicate OperandsFilled(nodes: Nodes, blank: set<string>)
    requires Grounded(nodes)
  {
    forall id :: id in nodes ==> OperandsHold(id, nodes, blank)
  }

  /** Whether a node leads, through instances, arrays or modifiers, to a difference or an
      intersection. */
  function MayBeEmpty(id: string, nodes: Nodes): bool
    requires Grounded(nodes) && id in nodes
    decreases Rank(DependencyGraph(nodes))[id]
  {
    var k := nodes[id].kind;
    if k.Boolean? then !k.operation.Union?
    else if k.Instance? || k.Array? || k.Modified? then
      SourceFirst(id, nodes);
      MayBeEmpty(k.source, nodes)
    else false
  }

  lemma {:induction false} EmptyOnlyIfMay(id: string, nodes: Nodes, blank: set<string>)
    requires Grounded(nodes) && id in nodes
    ensures EmptyOf(id, nodes, blank) ==> MayBeEmpty(id, nodes)
    ensures EmptyOf(id, nodes, nodes.Keys) <==> MayBeEmpty(id, nodes)
    decreases Rank(DependencyGraph(nodes))[id]
  {
    var k := nodes[id].kind;
    if k.Instance? || k.Array? || k.Modified? {
      SourceFirst(id, nodes);
      EmptyOnlyIfMay(k.source, nodes, blank);
    }
  }

  /** No boolean operand leads to a difference or an intersection. */
  ghost predicate OperandsSafe(nodes: Nodes)
    requires Grounded(nodes)
  {
    forall id, s :: id in nodes && nodes[id].kind.Boolean? && s in NodeDependencies(nodes[id].kind) ==>
      s in nodes && !MayBeEmpty(s, nodes)
  }

  /** The operands are filled whatever the solver leaves empty exactly if none of them leads to
      a difference or an intersection. */
  lemma {:induction false} AlwaysFilledIffSafe(nodes: Nodes)
    requires Grounded(nodes)
    ensures (forall blank :: OperandsFilled(nodes, blank)) <==> OperandsSafe(nodes)
  {
    if OperandsSafe(nodes) {
      forall blank, id | id in nodes ensures OperandsHold(id, nodes, blank) {
        forall s | nodes[id].kind.Boolean? && s in NodeDependencies(nodes[id].kind) ensures s in nodes && !EmptyOf(s, nodes, blank) {
          EmptyOnlyIfMay(s, nodes, blank);
        }
      }
    }
    if forall blank :: OperandsFilled(nodes, blank) {
      assert OperandsFilled(nodes, nodes.Keys);
      forall id, s | id in nodes && nodes[id].kind.Boolean? && s in NodeDependencies(nodes[id].kind)
        ensures s in nodes && !MayBeEmpty(s, nodes)
      {
        assert OperandsHold(id, nodes, nodes.Keys);
        EmptyOnlyIfMay(s, nodes, nodes.Keys);
      }
    }
  }

  lemma {:induction false} ResolutionIsType(id: string, nodes: Nodes, visiting: set<string>)
    requires Grounded(nodes) && id in nodes && ResolvesToMesh(id, nodes, visiting) == Mesh
    ensures TypeOf(id, nodes) == MeshObject
    decreases nodes.Keys - visiting
  {
    var k := nodes[id].kind;
    if k.Instance? {
      assert k.source in DependencyGraph(nodes)[id];
      ResolutionIsType(k.source, nodes, visiting + {id});
    }
  }

  /** Where all demands are met, the resolution and the type agree both ways. */
  lemma {:induction false} TypeIsResolution(id: string, nodes: Nodes, visiting: set<string>)
    requires Grounded(nodes) && id in nodes && MeshDemandsMet(nodes) && TypeOf(id, nodes) == MeshObject
    requires forall v :: v in visiting ==> v in nodes && Rank(DependencyGraph(nodes))[id] < Rank(DependencyGraph(nodes))[v]
    ensures ResolvesToMesh(id, nodes, visiting) == Mesh
    decreases Rank(DependencyGraph(nodes))[id]
  {
    var k := nodes[id].kind;
    if k.Instance? || k.Array? || k.Modified? {
      SourceFirst(id, nodes);
      assert DemandsMet(id, nodes);
      TypeIsResolution(k.source, nodes, visiting + {id});
    }
  }

  /** In a validated program the validator's resolution says exactly which nodes are meshes. */
  lemma {:induction false} ResolutionIffType(id: string, nodes: Nodes)
    requires Grounded(nodes) && id in nodes && MeshDemandsMet(nodes)
    ensures ResolvesToMesh(id, nodes, {}) == Mesh <==> TypeOf(id, nodes) == MeshObject
  {
    if ResolvesToMesh(id, nodes, {}) == Mesh {
      ResolutionIsType(id, nodes, {});
    }
    if TypeOf(id, nodes) == MeshObject {
      TypeIsResolution(id, nodes, {});
    }
  }

  lemma {:induction false} SourcesResolve(n: Node, nodes: Nodes)
    requires SourcesOk(n, nodes)
    ensures forall s :: s in MeshSources(n.kind) ==> s in nodes && ResolvesToMesh(s, nodes, {}) == Mesh
  {
  }

  lemma {:induction false} ValidatedDemandsMet(p: GeometryProgram)
    requires ProgramFieldsOk(p) && StructureOk(p)
    ensures Grounded(ById(p.nodes)) && MeshDemandsMet(ById(p.nodes))
  {
    var nodes := ById(p.nodes);
    ByIdHolds(p.nodes);
    ReferencesStayInside(p);
    forall id | id in nodes ensures DemandsMet(id, nodes) {
      SourcesResolve(nodes[id], nodes);
      forall s | s in MeshSources(nodes[id].kind) ensures s in nodes && TypeOf(s, nodes) == MeshObject {
        ResolutionIsType(s, nodes, {});
      }
    }
  }

  // ----- the compile loop

  function Flatten(waves: seq<seq<string>>): seq<string> {
    if waves == [] then [] else Flatten(waves[..|waves| - 1]) + waves[|waves| - 1]
  }

  /** The objects compiled so far are those of the finished waves, as they will end up. */
  ghost predicate Compiled(nodes: Nodes, objects: Objects, blank: set<string>) {
    && objects.Keys <= nodes.Keys
    && (Grounded(nodes) ==> forall id :: id in objects ==> objects[id] == FinalObject(id, nodes, blank))
  }

  function FinalObject(id: string, nodes: Nodes, blank: set<string>): CompiledObject
    requires Grounded(nodes) && id in nodes
  {
    CompiledObject(TypeOf(id, nodes), EmptyOf(id, nodes, blank))
  }

  lemma {:induction false} FinalOne(id: string, nodes: Nodes, objects: Objects, blank: set<string>)
    requires Grounded(nodes) && Compiled(nodes, objects, blank) && id in nodes
    requires NodeDependencies(nodes[id].kind) <= objects.Keys
    ensures ObjectOf(id, nodes[id].kind, objects, blank) == FinalObject(id, nodes, blank)
  {
    var k := nodes[id].kind;
    if k.Instance? || k.Array? || k.Modified? {
      assert k.source in NodeDependencies(k) && k.source in objects;
    }
  }

  // ----- what stops a node

  function OperandError(id: string, source: string, objects: Objects): Option<CompileError>
    requires source in objects
  {
    if objects[source].kind != MeshObject then Some(MeshSourceRequired(id))
    else if objects[source].empty then Some(EmptyMesh(id))
    else None
  }

  /** Arrays and modifiers need a mesh; a boolean needs two that are not empty, the left one
      first. */
  function NodeError(id: string, k: Kind, objects: Objects): Option<CompileError>
    requires NodeDependencies(k) <= objects.Keys
  {
    match k
    case Array(source, _, _) => if objects[source].kind != MeshObject then Some(MeshSourceRequired(id)) else None
    case Modified(source, _) => if objects[source].kind != MeshObject then Some(MeshSourceRequired(id)) else None
    case Boolean(left, right, _) =>
      var first := OperandError(id, left, objects);
      if first.Some? then first else OperandError(id, right, objects)
    case _ => None
  }

  lemma {:induction false} NodeErrorIff(id: string, nodes: Nodes, objects: Objects, blank: set<string>)
    requires Grounded(nodes) && Compiled(nodes, objects, blank) && id in nodes
    requires NodeDependencies(nodes[id].kind) <= objects.Keys
    ensures NodeError(id, nodes[id].kind, objects).None? <==> DemandsMet(id, nodes) && OperandsHold(id, nodes, blank)
    ensures NodeError(id, nodes[id].kind, objects) == Some(MeshSourceRequired(id)) ==> !DemandsMet(id, nodes)
    ensures NodeError(id, nodes[id].kind, objects) == Some(EmptyMesh(id)) ==> !OperandsHold(id, nodes, blank)
  {
    var k := nodes[id].kind;
    if k.Boolean? {
      assert k.left in NodeDependencies(k) && k.right in NodeDependencies(k);
    } else if k.Array? || k.Modified? {
      assert k.source in NodeDependencies(k);
    }
  }

  lemma {:induction false} CompileOne(nodes: Nodes, objects: Objects, blank: set<string>, id: string)
    requires Compiled(nodes, objects, blank) && id in nodes
    requires DependencyGraph(nodes)[id] <= objects.Keys
    ensures NodeDependencies(nodes[id].kind) <= objects.Keys
    ensures Compiled(nodes, objects[id := ObjectOf(id, nodes[id].kind, objects, blank)], blank)
    ensures Grounded(nodes) ==>
              && (NodeError(id, nodes[id].kind, objects).None? <==> DemandsMet(id, nodes) && OperandsHold(id, nodes, blank))
              && (NodeError(id, nodes[id].kind, objects) == Some(MeshSourceRequired(id)) ==> !DemandsMet(id, nodes))
              && (NodeError(id, nodes[id].kind, objects) == Some(EmptyMesh(id)) ==> !OperandsHold(id, nodes, blank))
  {
    assert NodeDependencies(nodes[id].kind) <= DependencyGraph(nodes)[id];
    if Grounded(nodes) {
      FinalOne(id, nodes, objects, blank);
      NodeErrorIff(id, nodes, objects, blank);
    }
  }

  /** Everything that these nodes ask of their sources is there. */
  ghost predicate AllMet(ids: seq<string>, nodes: Nodes, blank: set<string>)
    requires Grounded(nodes)
  {
    forall id :: id in ids && id in nodes ==> DemandsMet(id, nodes) && OperandsHold(id, nodes, blank)
  }

  /** What an error says about the program. */
  ghost predicate Justified(error: CompileError, nodes: Nodes, blank: set<string>) {
    match error
    case UnresolvedGraph => !Acyclic(DependencyGraph(nodes))
    case MeshSourceRequired(id) => Grounded(nodes) ==> id in nodes && !DemandsMet(id, nodes)
    case EmptyMesh(id) => Grounded(nodes) ==> id in nodes && !OperandsHold(id, nodes, blank)
    case ClosedProgramInvalid => false
  }

  ghost predicate WaveInv(nodes: Nodes, blank: set<string>, before: Objects, done: seq<string>, objects: Objects) {
    && Compiled(nodes, objects, blank)
    && objects.Keys == before.Keys + Members(done)
    && (Grounded(nodes) ==> AllMet(done, nodes, blank))
  }

  lemma {:induction false} WaveStarts(nodes: Nodes, before: Objects, objects: Objects, id: string)
    requires id in nodes && DependencyGraph(nodes)[id] <= before.Keys <= objects.Keys
    ensures DependencyGraph(nodes)[id] <= objects.Keys && NodeDependencies(nodes[id].kind) <= objects.Keys
  {
    assert NodeDependencies(nodes[id].kind) <= DependencyGraph(nodes)[id];
  }

  lemma {:induction false} WaveContinues(nodes: Nodes, blank: set<string>, before: Objects, done: seq<string>, objects: Objects, id: string)
    requires WaveInv(nodes, blank, before, done, objects)
    requires id in nodes && DependencyGraph(nodes)[id] <= objects.Keys && NodeDependencies(nodes[id].kind) <= objects.Keys
    requires NodeError(id, nodes[id].kind, objects).None?
    ensures WaveInv(nodes, blank, before, done + [id], objects[id := ObjectOf(id, nodes[id].kind, objects, blank)])
  {
    CompileOne(nodes, objects, blank, id);
    MembersGrow(done, id);
    if Grounded(nodes) {
      AllMetGrows(done, id, nodes, blank);
    }
  }

  lemma {:induction false} WaveStops(nodes: Nodes, blank: set<string>, objects: Objects, id: string)
    requires Compiled(nodes, objects, blank) && id in nodes
    requires DependencyGraph(nodes)[id] <= objects.Keys && NodeDependencies(nodes[id].kind) <= objects.Keys
    requires NodeError(id, nodes[id].kind, objects).Some?
    ensures Justified(NodeError(id, nodes[id].kind, objects).value, nodes, blank)
    ensures NodeError(id, nodes[id].kind, objects).value != UnresolvedGraph
    ensures Grounded(nodes) ==> !(DemandsMet(id, nodes) && OperandsHold(id, nodes, blank))
  {
    CompileOne(nodes, objects, blank, id);
    ErrorKinds(id, nodes[id].kind, objects);
  }

  lemma {:induction false} ErrorKinds(id: string, k: Kind, objects: Objects)
    requires NodeDependencies(k) <= objects.Keys
    ensures NodeError(id, k, objects) in {None, Some(MeshSourceRequired(id)), Some(EmptyMesh(id))}
  {
  }

  lemma {:induction false} AllMetGrows(done: seq<string>, id: string, nodes: Nodes, blank: set<string>)
    requires Grounded(nodes) && id in nodes
    ensures AllMet(done + [id], nodes, blank) <==> AllMet(done, nodes, blank) && DemandsMet(id, nodes) && OperandsHold(id, nodes, blank)
  {
    assert id in done + [id] && forall v :: v in done ==> v in done + [id];
  }

  lemma {:induction false} MembersGrow(done: seq<string>, id: string)
    ensures Members(done + [id]) == Members(done) + {id}
  {
  }

  /** One wave: its nodes are compiled in sorted order. */
  method CompileWave(nodes: Nodes, ready: seq<string>, before: Objects, blank: set<string>)
    returns (r: Outcome<Objects>)
    requires Compiled(nodes, before, blank)
    requires forall id :: id in ready ==> id in nodes && DependencyGraph(nodes)[id] <= before.Keys
    ensures r.Done? ==> r.value.Keys == before.Keys + Members(ready) && Compiled(nodes, r.value, blank)
    ensures Grounded(nodes) ==> (r.Done? <==> AllMet(ready, nodes, blank))
    ensures r.Stopped? ==> Justified(r.error, nodes, blank) && r.error != UnresolvedGraph
  {
    var objects := before;
    for i := 0 to |ready|
      invariant WaveInv(nodes, blank, before, ready[..i], objects)
    {
      var id := ready[i];
      assert ready[..i + 1] == ready[..i] + [id] && id in ready;
      WaveStarts(nodes, before, objects, id);
      var error := NodeError(id, nodes[id].kind, objects);
      if error.Some? {
        WaveStops(nodes, blank, objects, id);
        return Stopped(error.value);
      }
      WaveContinues(nodes, blank, before, ready[..i], objects, id);
      objects := objects[id := ObjectOf(id, nodes[id].kind, objects, blank)];
    }
    assert ready[..|ready|] == ready;
    return Done(objects);
  }

  /** The variables of the compile loop. */
  datatype Progress = Progress(pending: set<string>, objects: Objects, order: seq<string>)

  /** What the loop knows between waves. */
  ghost predicate LoopInv(nodes: Nodes, blank: set<string>, ran: seq<set<string>>, s: Progress) {
    && InProgress(DependencyGraph(nodes), ran, s.objects.Keys)
    && s.pending == nodes.Keys - s.objects.Keys
    && s.order == Flatten(Listed(ran))
    && Compiled(nodes, s.objects, blank)
    && (Grounded(nodes) ==> forall id :: id in s.objects ==> DemandsMet(id, nodes) && OperandsHold(id, nodes, blank))
  }

  /** The compile loop. It compiles the schedule, wave by wave, to the end if and only if the
      graph has no cycle, every demand for a mesh is met and no boolean operand is empty. What
      it stops on is then a reason, and on a graph with a cycle possibly not the only one. */
  method CompileNodes(nodes: Nodes, blank: set<string>) returns (r: Outcome<seq<string>>)
    requires Closed(DependencyGraph(nodes))
    ensures r.Done? <==> Acyclic(DependencyGraph(nodes)) && MeshDemandsMet(nodes) && OperandsFilled(nodes, blank)
    ensures r.Done? ==> Schedule(DependencyGraph(nodes), {}).Some?
    ensures r.Done? ==> r.value == Flatten(Listed(Schedule(DependencyGraph(nodes), {}).value))
    ensures r.Stopped? ==> Justified(r.error, nodes, blank)
  {
    ghost var ran: seq<set<string>> := [];
    var s := Progress(nodes.Keys, map[], []);
    LoopStarts(nodes, blank);
    while s.pending != {}
      invariant LoopInv(nodes, blank, ran, s)
      decreases s.pending
    {
      var next;
      next, ran := CompileNext(nodes, blank, s, ran);
      if next.Stopped? {
        return Stopped(next.error);
      }
      s := next.value;
    }
    LoopEnds(nodes, blank, ran, s);
    return Done(s.order);
  }

  /** One turn of the loop. */
  method CompileNext(nodes: Nodes, blank: set<string>, s: Progress, ghost ran: seq<set<string>>)
    returns (r: Outcome<Progress>, ghost ran': seq<set<string>>)
    requires Closed(DependencyGraph(nodes)) && LoopInv(nodes, blank, ran, s) && s.pending != {}
    ensures r.Done? ==> LoopInv(nodes, blank, ran', r.value) && r.value.pending < s.pending
    ensures r.Stopped? ==> !(Grounded(nodes) && MeshDemandsMet(nodes) && OperandsFilled(nodes, blank))
    ensures r.Stopped? ==> Justified(r.error, nodes, blank)
  {
    ran' := ran;
    var ready := set id | id in s.pending && AllReferences(nodes[id]) <= s.objects.Keys;
    ReadySet(nodes, blank, ran, s, ready);
    if ready == {} {
      return Stopped(UnresolvedGraph), ran;
    }
    var wave := CompileWave(nodes, Sorted(ready), s.objects, blank);
    if wave.Stopped? {
      return Stopped(wave.error), ran;
    }
    NextWave(nodes, blank, ran, s, ready, wave.value);
    return Done(Progress(s.pending - ready, wave.value, s.order + Sorted(ready))), ran + [ready];
  }

  lemma {:induction false} OrderGrows(ran: seq<set<string>>, ready: set<string>)
    ensures Flatten(Listed(ran + [ready])) == Flatten(Listed(ran)) + Sorted(ready)
  {
    ListedGrows(ran, ready);
    FlattenGrows(Listed(ran), Sorted(ready));
  }

  lemma {:induction false} LoopStarts(nodes: Nodes, blank: set<string>)
    ensures LoopInv(nodes, blank, [], Progress(nodes.Keys, map[], []))
  {
    var none: Objects := map[];
    assert none.Keys == {};
    NothingStarted(DependencyGraph(nodes));
  }

  lemma {:induction false} ReadySet(nodes: Nodes, blank: set<string>, ran: seq<set<string>>, s: Progress, ready: set<string>)
    requires Closed(DependencyGraph(nodes)) && LoopInv(nodes, blank, ran, s)
    requires ready == set id | id in s.pending && AllReferences(nodes[id]) <= s.objects.Keys
    ensures ready == Ready(DependencyGraph(nodes), s.objects.Keys)
    ensures s.pending != {} && ready == {} ==> !Acyclic(DependencyGraph(nodes))
  {
    var g := DependencyGraph(nodes);
    assert forall id :: id in nodes ==> g[id] == AllReferences(nodes[id]);
    WaveLoopEnds(g, ran, s.objects.Keys);
    ScheduleIffAcyclic(g);
  }

  lemma {:induction false} NextWave(nodes: Nodes, blank: set<string>, ran: seq<set<string>>, s: Progress, ready: set<string>, after: Objects)
    requires Closed(DependencyGraph(nodes)) && LoopInv(nodes, blank, ran, s)
    requires ready == Ready(DependencyGraph(nodes), s.objects.Keys) && ready != {}
    requires after.Keys == s.objects.Keys + Members(Sorted(ready)) && Compiled(nodes, after, blank)
    requires Grounded(nodes) ==> AllMet(Sorted(ready), nodes, blank)
    ensures LoopInv(nodes, blank, ran + [ready], Progress(s.pending - ready, after, s.order + Sorted(ready)))
    ensures s.pending - ready < s.pending
  {
    assert Members(Sorted(ready)) == ready;
    RunWave(DependencyGraph(nodes), ran, s.objects.Keys);
    OrderGrows(ran, ready);
    assert after.Keys == s.objects.Keys + ready;
    PendingShrinks(nodes.Keys, s.pending, s.objects.Keys, ready);
  }

  lemma {:induction false} PendingShrinks(all: set<string>, pending: set<string>, done: set<string>, ready: set<string>)
    requires pending == all - done && ready != {} && ready <= pending
    ensures pending - ready == all - (done + ready) && pending - ready < pending
  {
    var id :| id in ready;
    assert id in pending && id !in pending - ready;
  }

  lemma {:induction false} FlattenGrows(waves: seq<seq<string>>, wave: seq<string>)
    ensures Flatten(waves + [wave]) == Flatten(waves) + wave
  {
    assert (waves + [wave])[..|waves|] == waves;
  }

  lemma {:induction false} LoopEnds(nodes: Nodes, blank: set<string>, ran: seq<set<string>>, s: Progress)
    requires Closed(DependencyGraph(nodes)) && LoopInv(nodes, blank, ran, s) && s.pending == {}
    ensures Acyclic(DependencyGraph(nodes)) && MeshDemandsMet(nodes) && OperandsFilled(nodes, blank)
    ensures Schedule(DependencyGraph(nodes), {}) == Some(ran)
  {
    forall id | id in nodes ensures id in s.objects {
      assert id !in nodes.Keys - s.objects.Keys;
    }
    assert s.objects.Keys == DependencyGraph(nodes).Keys;
    WaveLoopEnds(DependencyGraph(nodes), ran, s.objects.Keys);
    ScheduleIffAcyclic(DependencyGraph(nodes));
  }

  // ----- the program-level theorem

  /** The order in which the worker compiles the nodes of a grounded program. */
  ghost function CompileOrder(nodes: Nodes): seq<string>
    requires Grounded(nodes)
  {
    ScheduleIffAcyclic(DependencyGraph(nodes));
    Flatten(Listed(Schedule(DependencyGraph(nodes), {}).value))
  }

  /** A program that the contract accepts is compiled to the end unless the solver leaves a
      boolean operand empty, and never stops on anything else. */
  method CompileProgram(p: GeometryProgram, blank: set<string>) returns (r: Outcome<seq<string>>)
    ensures r == Stopped(ClosedProgramInvalid) <==> !WorkerAccepts(p)
    ensures ProgramFieldsOk(p) && StructureOk(p) ==> Grounded(ById(p.nodes))
    ensures ProgramFieldsOk(p) && StructureOk(p) ==> (r.Done? <==> OperandsFilled(ById(p.nodes), blank))
    ensures ProgramFieldsOk(p) && StructureOk(p) && r.Stopped? ==> r.error.EmptyMesh?
    ensures r.Done? ==> Grounded(ById(p.nodes)) && r.value == CompileOrder(ById(p.nodes))
  {
    var ok := ValidateClosedProgram(p);
    if ProgramFieldsOk(p) && StructureOk(p) {
      ValidatedIsClosed(p);
      ValidatedDemandsMet(p);
    }
    if !ok {
      return Stopped(ClosedProgramInvalid);
    }
    ClosedReferences(p);
    r := CompileNodes(ById(p.nodes), blank);
  }

  // ----- what the order is worth

  /** A listing of everything outside `done`, once each, in which whatever an entry depends
      on is done or listed before it. */
  ghost predicate Topological(g: Graph, done: set<string>, order: seq<string>) {
    && NoRepeats(order)
    && Members(order) == g.Keys - done
    && forall i, d :: 0 <= i < |order| && order[i] in g && d in g[order[i]] ==> d in done || d in order[..i]
  }

  lemma {:induction false} FlattenFront(wave: seq<string>, rest: seq<seq<string>>)
    ensures Flatten([wave] + rest) == wave + Flatten(rest)
  {
    var all := [wave] + rest;
    if rest == [] {
      assert all[..0] == [];
      assert all == [wave];
    } else {
      assert all[..|all| - 1] == [wave] + rest[..|rest| - 1];
      FlattenFront(wave, rest[..|rest| - 1]);
    }
  }

  lemma {:induction false} RunIsTopological(g: Graph, done: set<string>, waves: seq<set<string>>)
    requires Closed(g) && done <= g.Keys && Runs(g, done, waves)
    ensures Topological(g, done, Flatten(Listed(waves)))
    decreases |waves|
  {
    if waves == [] {
      assert Listed(waves) == [];
    } else {
      var wave, rest := Sorted(waves[0]), Listed(waves[1..]);
      RunIsTopological(g, done + waves[0], waves[1..]);
      assert Listed(waves) == [wave] + rest;
      FlattenFront(wave, rest);
      WaveThenRest(g, done, waves[0], wave, Flatten(rest));
    }
  }

  lemma {:induction false} WaveThenRest(g: Graph, done: set<string>, ready: set<string>, wave: seq<string>, rest: seq<string>)
    requires done <= g.Keys && ready == Ready(g, done)
    requires NoRepeats(wave) && forall v :: v in wave <==> v in ready
    requires Topological(g, done + ready, rest)
    ensures Topological(g, done, wave + rest)
  {
    var order := wave + rest;
    forall i, j | 0 <= i < j < |order| ensures order[i] != order[j] {
      if i < |wave| <= j {
        assert order[i] in ready && rest[j - |wave|] in Members(rest);
      }
    }
    forall v ensures v in Members(order) <==> v in g.Keys - done {
      assert v in Members(order) <==> v in wave || v in Members(rest);
    }
    forall i, d | 0 <= i < |order| && order[i] in g && d in g[order[i]] ensures d in done || d in order[..i] {
      if i < |wave| {
        assert order[i] in ready;
      } else {
        assert order[i] == rest[i - |wave|];
        assert order[..i] == wave + rest[..i - |wave|];
      }
    }
  }

  /** The worker compiles every node exactly once, after its parent and its sources. */
  lemma {:induction false} CompileOrderIsTopological(nodes: Nodes)
    requires Grounded(nodes)
    ensures Topological(DependencyGraph(nodes), {}, CompileOrder(nodes))
  {
    ScheduleIffAcyclic(DependencyGraph(nodes));
    ScheduleRuns(DependencyGraph(nodes), {});
    RunIsTopological(DependencyGraph(nodes), {}, Schedule(DependencyGraph(nodes), {}).value);
  }

  /** The order does not depend on how the program lists its nodes. */
  lemma {:induction false} CompileOrderIgnoresListing(nodes: seq<Node>, other: seq<Node>)
    requires UniqueIds(nodes) && UniqueIds(other) && (forall n :: n in nodes <==> n in other)
    requires Grounded(ById(nodes))
    ensures Grounded(ById(other)) && CompileOrder(ById(other)) == CompileOrder(ById(nodes))
  {
    ByIdIgnoresOrder(nodes, other);
  }
}
