/** The contract's validator of a whole geometry program. */
module Validator {
  import opened Affine
  import opened Graphs
  import opened Program
  import opened Envelope

  datatype Anchor = Anchor(id: string, node: string)

  datatype Connector = Connector(id: string, anchor: string)

  datatype Group = Group(id: string, nodes: seq<string>)

  datatype GeometryProgram = GeometryProgram(
    version2: bool, role: string, quantity: nat, llmAuthored: bool, maximum: Option<Vec3>,
    materials: seq<string>, nodes: seq<Node>, anchors: seq<Anchor>, connectors: seq<Connector>,
    groups: seq<Group>, construction: seq<string>, adjustments: seq<string>)

  datatype Verdict = Accepted | Rejected(reason: string)

  const SLACK := 0.000001

  /** The field checks that run before the graph is looked at. */
  predicate ProgramFieldsOk(p: GeometryProgram) {
    && 1 <= |p.nodes| <= 512
    && (forall n :: n in p.nodes ==> NodeOk(n))
    && 1 <= p.quantity <= 32
    && |p.adjustments| <= 16
  }

  lemma {:induction false} FieldsCarryOver(p: GeometryProgram)
    requires ProgramFieldsOk(p)
    ensures KindsOk(ById(p.nodes))
  {
    ByIdHolds(p.nodes);
  }

  // ----- references that must lead to a mesh

  datatype Resolution = Mesh | NotMesh | Unknown

  function ResolvesToMesh(id: string, nodes: Nodes, visiting: set<string>): Resolution
    decreases nodes.Keys - visiting
  {
    if id in visiting then NotMesh
    else if id !in nodes then Unknown
    else
      match nodes[id].kind
      case Primitive(_) => Mesh
      case Extrude(_, _) => Mesh
      case Revolve(_, _, _, _) => Mesh
      case Sweep(_, _, _) => Mesh
      case Terrain(_, _, _, _, _) => Mesh
      case Boolean(_, _, _) => Mesh
      case Instance(source) => ResolvesToMesh(source, nodes, visiting + {id})
      case Array(source, _, _) => ResolvesToMesh(source, nodes, visiting + {id})
      case Modified(source, _) => ResolvesToMesh(source, nodes, visiting + {id})
      case _ => NotMesh
  }

  // ----- the checks, in the order of the source

  predicate HasExactAsset(p: GeometryProgram) { exists n :: n in p.nodes && n.kind.ExactAsset? }

  predicate ExactIsAlone(p: GeometryProgram) {
    HasExactAsset(p) ==>
      && p.version2 && !p.llmAuthored && |p.nodes| == 1 && p.quantity == 1
      && p.materials == [] && p.anchors == [] && p.connectors == [] && p.groups == [] && p.construction == []
  }

  predicate Version1Kind(k: Kind) { k.Primitive? || k.Curve? || k.Instance? }

  predicate VersionOk(p: GeometryProgram) {
    !p.version2 ==>
      && (forall n :: n in p.nodes ==> Version1Kind(n.kind) || n.kind.ExactAsset?)
      && p.anchors == [] && p.connectors == [] && p.groups == [] && p.construction == []
  }

  /** The first pass over the nodes. */
  predicate AttachmentsOk(n: Node, known: set<string>, materials: seq<string>) {
    && (n.parent.Some? ==> n.parent.value in known && n.parent.value != n.id)
    && (n.material.Some? ==> n.material.value in materials)
    && (n.kind.Instance? ==> n.kind.source in known && n.kind.source != n.id)
  }

  predicate SourceIsMesh(n: Node, source: string, nodes: Nodes) {
    source in nodes && source != n.id && ResolvesToMesh(source, nodes, {}) == Mesh
  }

  predicate ProfileIs(n: Node, profile: string, nodes: Nodes) {
    profile in nodes && profile != n.id && nodes[profile].kind.Profile?
  }

  /** The second pass over the nodes. */
  predicate SourcesOk(n: Node, nodes: Nodes) {
    match n.kind
    case Instance(source) => source in nodes && source != n.id
    case Array(source, _, _) => SourceIsMesh(n, source, nodes)
    case Modified(source, _) => SourceIsMesh(n, source, nodes)
    case Boolean(left, right, _) => SourceIsMesh(n, left, nodes) && SourceIsMesh(n, right, nodes)
    case Extrude(profile, _) => ProfileIs(n, profile, nodes) && nodes[profile].kind.closed
    case Sweep(profile, _, _) => ProfileIs(n, profile, nodes) && nodes[profile].kind.closed
    case Revolve(profile, _, _, _) =>
      && ProfileIs(n, profile, nodes)
      && (forall q :: q in nodes[profile].kind.outline ==> q.x >= 0.0)
      && (exists q :: q in nodes[profile].kind.outline && q.x > 0.0)
    case Profile(_, _) => n.parent.None? && n.material.None? && n.role.None? && n.transform == IDENTITY
    case _ => true
  }

  function Parents(nodes: Nodes): map<string, Option<string>> { map id | id in nodes :: nodes[id].parent }

  function InstanceSources(nodes: Nodes): map<string, string> {
    map id | id in nodes && nodes[id].kind.Instance? :: nodes[id].kind.source
  }

  predicate ConstructionOk(p: GeometryProgram) {
    && NoRepeats(p.construction)
    && Members(p.construction) <= Ids(p.nodes)
    && forall n :: n in p.nodes && n.kind.Profile? ==> n.id in p.construction
  }

  function AnchorIds(anchors: seq<Anchor>): seq<string> { seq(|anchors|, i requires 0 <= i < |anchors| => anchors[i].id) }
  function ConnectorIds(items: seq<Connector>): seq<string> { seq(|items|, i requires 0 <= i < |items| => items[i].id) }
  function GroupIds(groups: seq<Group>): seq<string> { seq(|groups|, i requires 0 <= i < |groups| => groups[i].id) }

  predicate AnchorsOk(p: GeometryProgram) {
    && NoRepeats(AnchorIds(p.anchors))
    && (forall a :: a in p.anchors ==> a.node in Ids(p.nodes))
    && NoRepeats(ConnectorIds(p.connectors))
    && (forall c :: c in p.connectors ==> c.anchor in AnchorIds(p.anchors))
    && NoRepeats(GroupIds(p.groups))
    && forall g :: g in p.groups ==> Members(g.nodes) <= Ids(p.nodes)
  }

  function RoleCount(nodes: seq<Node>, role: string): nat {
    if nodes == [] then 0
    else RoleCount(nodes[..|nodes| - 1], role) + if nodes[|nodes| - 1].role == Some(role) then 1 else 0
  }

  predicate SemanticsOk(p: GeometryProgram) {
    && RoleCount(p.nodes, p.role) == p.quantity
    && (forall n :: n in p.nodes && n.role == Some(p.role) ==> n.id !in p.construction)
    && (p.llmAuthored ==> |p.nodes| >= 3)
  }

  function NodeOrder(nodes: seq<Node>): seq<string> { seq(|nodes|, i requires 0 <= i < |nodes| => nodes[i].id) }

  function Dimensions(b: Hull.Box): Vec3 { Subtract(b.max, b.min) }

  predicate MaximumOk(m: Vec3) { SizeOk(m.x, 300.0) && SizeOk(m.y, 300.0) && SizeOk(m.z, 300.0) }

  predicate Fits(size: Vec3, m: Vec3) { size.x <= m.x + SLACK && size.y <= m.y + SLACK && size.z <= m.z + SLACK }

  function BoundsOf(sqrt: real -> real, p: GeometryProgram): Result<Hull.Box>
    requires Grounded(ById(p.nodes)) && KindsOk(ById(p.nodes))
  {
    ByIdHolds(p.nodes);
    ProgramBounds(sqrt, NodeOrder(p.nodes), ById(p.nodes), Members(p.construction))
  }

  predicate DimensionsOk(sqrt: real -> real, p: GeometryProgram)
    requires Grounded(ById(p.nodes)) && KindsOk(ById(p.nodes))
  {
    p.maximum.Some? ==>
      && MaximumOk(p.maximum.value)
      && BoundsOf(sqrt, p).Ok?
      && Fits(Dimensions(BoundsOf(sqrt, p).value), p.maximum.value)
  }

  /** Everything but the size limit. */
  ghost predicate StructureOk(p: GeometryProgram) {
    var nodes := ById(p.nodes);
    && ExactIsAlone(p)
    && UniqueIds(p.nodes)
    && NoRepeats(p.materials)
    && VersionOk(p)
    && (forall n :: n in p.nodes ==> AttachmentsOk(n, Ids(p.nodes), p.materials))
    && (forall n :: n in p.nodes ==> SourcesOk(n, nodes))
    && Acyclic(PointerGraph(Pointers(Parents(nodes))))
    && Acyclic(PointerGraph(InstanceSources(nodes)))
    && Acyclic(DependencyGraph(nodes))
    && ConstructionOk(p)
    && AnchorsOk(p)
    && SemanticsOk(p)
  }

  ghost predicate Accepts(sqrt: real -> real, p: GeometryProgram)
    requires ProgramFieldsOk(p)
  {
    FieldsCarryOver(p);
    && StructureOk(p)
    && (ReferencesStayInside(p); DimensionsOk(sqrt, p))
  }

  lemma {:induction false} ReferencesStayInside(p: GeometryProgram)
    requires forall n :: n in p.nodes ==> AttachmentsOk(n, Ids(p.nodes), p.materials)
    requires forall n :: n in p.nodes ==> SourcesOk(n, ById(p.nodes))
    ensures Closed(DependencyGraph(ById(p.nodes)))
    ensures forall id :: id in Parents(ById(p.nodes)) && Parents(ById(p.nodes))[id].Some? ==>
              Parents(ById(p.nodes))[id].value in Parents(ById(p.nodes))
  {
    ByIdHolds(p.nodes);
    var nodes := ById(p.nodes);
    forall id | id in nodes ensures DependencyGraph(nodes)[id] <= nodes.Keys {
      assert SourcesOk(nodes[id], nodes);
    }
  }

  /** The two pointer walks reject nothing that the dependency walk would not reject too. */
  lemma {:induction false} PointerWalksAreRedundant(nodes: Nodes)
    requires Closed(DependencyGraph(nodes)) && Acyclic(DependencyGraph(nodes))
    ensures Acyclic(PointerGraph(Pointers(Parents(nodes))))
    ensures Acyclic(PointerGraph(InstanceSources(nodes)))
  {
    ParentsAreDependencies(nodes);
    SourcesAreDependencies(nodes);
  }

  lemma {:induction false} ParentsAreDependencies(nodes: Nodes)
    requires Closed(DependencyGraph(nodes)) && Acyclic(DependencyGraph(nodes))
    ensures Acyclic(PointerGraph(Pointers(Parents(nodes))))
  {
    var parents := Pointers(Parents(nodes));
    forall v | v in parents ensures parents[v] in DependencyGraph(nodes)[v] {
    }
    Subgraph(DependencyGraph(nodes), PointerGraph(parents));
  }

  lemma {:induction false} SourcesAreDependencies(nodes: Nodes)
    requires Closed(DependencyGraph(nodes)) && Acyclic(DependencyGraph(nodes))
    ensures Acyclic(PointerGraph(InstanceSources(nodes)))
  {
    var sources := InstanceSources(nodes);
    forall v | v in sources ensures sources[v] in DependencyGraph(nodes)[v] {
    }
    Subgraph(DependencyGraph(nodes), PointerGraph(sources));
  }

  /** The validator: the three cycle checks run as walks, the size check runs the envelope. */
  method ValidateProgramGraph(sqrt: real -> real, p: GeometryProgram) returns (v: Verdict)
    requires ProgramFieldsOk(p)
    ensures v.Accepted? <==> Accepts(sqrt, p)
  {
    FieldsCarryOver(p);
    v := CheckListing(p);
    if v.Rejected? {
      return;
    }
    ReferencesStayInside(p);
    v := CheckCycles(ById(p.nodes));
    if v.Rejected? {
      return;
    }
    if !ConstructionOk(p) {
      return Rejected("construction node IDs");
    }
    if !AnchorsOk(p) {
      return Rejected("anchors, connectors or semantic groups");
    }
    if !SemanticsOk(p) {
      return Rejected("semantic nodes");
    }
    v := CheckDimensions(sqrt, p);
  }

  method CheckListing(p: GeometryProgram) returns (v: Verdict)
    ensures v.Accepted? <==>
      && ExactIsAlone(p) && UniqueIds(p.nodes) && NoRepeats(p.materials) && VersionOk(p)
      && (forall n :: n in p.nodes ==> AttachmentsOk(n, Ids(p.nodes), p.materials))
      && (forall n :: n in p.nodes ==> SourcesOk(n, ById(p.nodes)))
  {
    if !ExactIsAlone(p) {
      return Rejected("exact reuse requires an isolated program");
    }
    if !UniqueIds(p.nodes) {
      return Rejected("node IDs must be unique");
    }
    if !NoRepeats(p.materials) {
      return Rejected("material IDs must be unique");
    }
    if !VersionOk(p) {
      return Rejected("version 2 capabilities");
    }
    if !forall n :: n in p.nodes ==> AttachmentsOk(n, Ids(p.nodes), p.materials) {
      return Rejected("unknown parent, material or instance source");
    }
    if !forall n :: n in p.nodes ==> SourcesOk(n, ById(p.nodes)) {
      return Rejected("geometry reference");
    }
    return Accepted;
  }

  method CheckCycles(nodes: Nodes) returns (v: Verdict)
    requires Closed(DependencyGraph(nodes))
    requires forall id :: id in Parents(nodes) && Parents(nodes)[id].Some? ==> Parents(nodes)[id].value in Parents(nodes)
    ensures v.Accepted? <==>
      && Acyclic(PointerGraph(Pointers(Parents(nodes))))
      && Acyclic(PointerGraph(InstanceSources(nodes)))
      && Acyclic(DependencyGraph(nodes))
  {
    var ok := ClimbParents(Parents(nodes));
    if !ok {
      return Rejected("parent graph contains a cycle");
    }
    ok := FollowPointers(InstanceSources(nodes));
    if !ok {
      return Rejected("instance graph contains a cycle");
    }
    ok := ValidateDependencyGraph(DependencyGraph(nodes));
    return if ok then Accepted else Rejected("dependency graph contains a cycle");
  }

  method CheckDimensions(sqrt: real -> real, p: GeometryProgram) returns (v: Verdict)
    requires Grounded(ById(p.nodes)) && KindsOk(ById(p.nodes))
    ensures v.Accepted? <==> DimensionsOk(sqrt, p)
  {
    if p.maximum.None? {
      return Accepted;
    }
    if !MaximumOk(p.maximum.value) {
      return Rejected("maximum dimensions");
    }
    ByIdHolds(p.nodes);
    var bounds := ComputeProgramBounds(sqrt, NodeOrder(p.nodes), ById(p.nodes), Members(p.construction));
    if bounds.Err? {
      return Rejected("no bounds");
    }
    return if Fits(Dimensions(bounds.value), p.maximum.value) then Accepted else Rejected("dimension exceeds maximum");
  }
}
