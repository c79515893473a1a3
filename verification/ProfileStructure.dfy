/** When the normalisation of profile definitions leads to a program that the validator
    accepts. */
module ProfileStructure {
  import opened Affine
  import opened Graphs
  import opened Program
  import opened Validator
  import opened Repair
  import opened ProfileRepair

  // ----- the condition, on the program as it comes

  /** Parents and references, where a profile has none. */
  function PrunedGraph(nodes: Nodes): Graph {
    map id | id in nodes :: if nodes[id].kind.Profile? then {} else ParentSet(nodes[id]) + NodeDependencies(nodes[id].kind)
  }

  /** The nodes with the role, profiles apart. */
  function ShapeRoleCount(nodes: seq<Node>, role: string): nat {
    if nodes == [] then 0
    else
      var last := nodes[|nodes| - 1];
      ShapeRoleCount(nodes[..|nodes| - 1], role) + if last.role == Some(role) && !last.kind.Profile? then 1 else 0
  }

  /** The structural checks without what the pass takes care of: where profiles hang, what they
      carry and whether they are listed. A role or a link that only a profile carries is lost. */
  ghost predicate Repairable(p: GeometryProgram) {
    && ExactIsAlone(p) && UniqueIds(p.nodes) && NoRepeats(p.materials) && VersionOk(p)
    && ShapesOk(p)
    && Acyclic(PrunedGraph(ById(p.nodes)))
    && NoRepeats(p.construction) && Members(p.construction) <= Ids(p.nodes)
    && AnchorsOk(p)
    && RolesOk(p)
  }

  predicate ShapesOk(p: GeometryProgram) {
    forall n :: n in p.nodes && !n.kind.Profile? ==>
      AttachmentsOk(n, Ids(p.nodes), p.materials) && SourcesOk(n, ById(p.nodes))
  }

  predicate RolesOk(p: GeometryProgram) {
    && ShapeRoleCount(p.nodes, p.role) == p.quantity
    && (forall n :: n in p.nodes && !n.kind.Profile? && n.role == Some(p.role) ==> n.id !in p.construction)
    && (p.llmAuthored ==> |p.nodes| >= 3)
  }

  predicate RepairableFields(p: GeometryProgram) {
    && 1 <= |p.nodes| <= 512
    && (forall n :: n in p.nodes ==> if n.kind.Profile? then n.id != "" && KindOk(n.kind) else NodeOk(n))
    && 1 <= p.quantity <= 32
    && |p.adjustments| <= 16
  }

  // ----- what cleaning does to the lists

  lemma {:induction false} CleanMember(nodes: seq<Node>, n: Node) returns (before: Node)
    requires n in CleanNodes(nodes)
    ensures before in nodes && n == CleanNode(before)
  {
    var i :| 0 <= i < |nodes| && CleanNodes(nodes)[i] == n;
    before := nodes[i];
  }

  lemma {:induction false} CleanedMember(nodes: seq<Node>, n: Node)
    requires n in nodes
    ensures CleanNode(n) in CleanNodes(nodes)
  {
    var i :| 0 <= i < |nodes| && nodes[i] == n;
    assert CleanNodes(nodes)[i] == CleanNode(n);
  }

  function CleanById(nodes: Nodes): Nodes { map id | id in nodes :: CleanNode(nodes[id]) }

  lemma {:induction false} ByIdCleaned(nodes: seq<Node>)
    ensures ById(CleanNodes(nodes)) == CleanById(ById(nodes))
  {
    if nodes != [] {
      ByIdCleaned(nodes[..|nodes| - 1]);
      assert CleanNodes(nodes)[..|nodes| - 1] == CleanNodes(nodes[..|nodes| - 1]);
    }
  }

  lemma {:induction false} IdsCleaned(nodes: seq<Node>)
    ensures Ids(CleanNodes(nodes)) == Ids(nodes)
    ensures UniqueIds(CleanNodes(nodes)) <==> UniqueIds(nodes)
  {
    assert forall i :: 0 <= i < |nodes| ==> CleanNodes(nodes)[i].id == nodes[i].id;
    forall n | n in nodes ensures n.id in Ids(CleanNodes(nodes)) {
      CleanedMember(nodes, n);
    }
  }

  lemma {:induction false} RolesCleaned(nodes: seq<Node>, role: string)
    ensures RoleCount(CleanNodes(nodes), role) == ShapeRoleCount(nodes, role)
  {
    if nodes != [] {
      RolesCleaned(nodes[..|nodes| - 1], role);
      assert CleanNodes(nodes)[..|nodes| - 1] == CleanNodes(nodes[..|nodes| - 1]);
    }
  }

  function ProfileIds(nodes: seq<Node>): set<string> { set n | n in nodes && n.kind.Profile? :: n.id }

  lemma {:induction false} ProfileIdsGrow(nodes: seq<Node>)
    requires nodes != []
    ensures var last := nodes[|nodes| - 1];
            ProfileIds(nodes) == ProfileIds(nodes[..|nodes| - 1]) + if last.kind.Profile? then {last.id} else {}
  {
    var init, last := nodes[..|nodes| - 1], nodes[|nodes| - 1];
    assert forall n :: n in nodes <==> n in init || n == last;
  }

  lemma {:induction false} MembersGrow(ids: seq<string>, id: string)
    ensures Members(ids + [id]) == Members(ids) + {id}
  {
  }

  /** What the construction list becomes. */
  lemma {:induction false} ListedAre(construction: seq<string>, nodes: seq<Node>)
    ensures Members(AddProfiles(construction, nodes)) ==
              Members(construction) + ProfileIds(nodes)
    ensures NoRepeats(AddProfiles(construction, nodes)) <==> NoRepeats(construction)
    ensures (forall n :: n in nodes ==> !n.kind.Profile?) ==> AddProfiles(construction, nodes) == construction
  {
    AddedStay(construction, nodes);
    if nodes != [] {
      var init, last := nodes[..|nodes| - 1], nodes[|nodes| - 1];
      ListedAre(construction, init);
      ProfileIdsGrow(nodes);
      MembersGrow(AddProfiles(construction, init), last.id);
      assert forall n :: n in init ==> n in nodes;
    }
  }

  // ----- what it does to the checks

  lemma {:induction false} ResolutionCleaned(id: string, nodes: Nodes, visiting: set<string>)
    ensures ResolvesToMesh(id, CleanById(nodes), visiting) == ResolvesToMesh(id, nodes, visiting)
    decreases nodes.Keys - visiting
  {
    if id !in visiting && id in nodes {
      var k := nodes[id].kind;
      if k.Instance? || k.Array? || k.Modified? {
        ResolutionCleaned(k.source, nodes, visiting + {id});
      }
    }
  }

  lemma {:induction false} SourcesCleaned(n: Node, nodes: Nodes)
    requires !n.kind.Profile?
    ensures SourcesOk(n, CleanById(nodes)) <==> SourcesOk(n, nodes)
  {
    if n.kind.Array? || n.kind.Modified? {
      ResolutionCleaned(n.kind.source, nodes, {});
    } else if n.kind.Boolean? {
      ResolutionCleaned(n.kind.left, nodes, {});
      ResolutionCleaned(n.kind.right, nodes, {});
    }
  }

  lemma {:induction false} GraphCleaned(nodes: Nodes)
    ensures DependencyGraph(CleanById(nodes)) == PrunedGraph(nodes)
  {
    forall id | id in nodes ensures DependencyGraph(CleanById(nodes))[id] == PrunedGraph(nodes)[id] {
      assert NodeDependencies(CleanNode(nodes[id]).kind) == NodeDependencies(nodes[id].kind);
    }
  }

  ghost predicate AllChecked(q: GeometryProgram) {
    forall n :: n in q.nodes ==> AttachmentsOk(n, Ids(q.nodes), q.materials) && SourcesOk(n, ById(q.nodes))
  }

  lemma {:induction false} NodeCleaned(n: Node, p: GeometryProgram)
    ensures AttachmentsOk(CleanNode(n), Ids(p.nodes), p.materials) && SourcesOk(CleanNode(n), CleanById(ById(p.nodes))) <==>
              (!n.kind.Profile? ==> AttachmentsOk(n, Ids(p.nodes), p.materials) && SourcesOk(n, ById(p.nodes)))
  {
    if !n.kind.Profile? {
      SourcesCleaned(n, ById(p.nodes));
    }
  }

  lemma {:induction false} ChecksCleaned(p: GeometryProgram)
    ensures AllChecked(Normalised(p)) <==> ShapesOk(p)
  {
    var q := Normalised(p);
    ByIdCleaned(p.nodes);
    IdsCleaned(p.nodes);
    if ShapesOk(p) {
      forall n | n in q.nodes ensures AttachmentsOk(n, Ids(q.nodes), q.materials) && SourcesOk(n, ById(q.nodes)) {
        var before := CleanMember(p.nodes, n);
        NodeCleaned(before, p);
      }
    }
    if AllChecked(q) {
      forall n | n in p.nodes && !n.kind.Profile?
        ensures AttachmentsOk(n, Ids(p.nodes), p.materials) && SourcesOk(n, ById(p.nodes))
      {
        CleanedMember(p.nodes, n);
        NodeCleaned(n, p);
      }
    }
  }

  lemma {:induction false} KindsCleaned(nodes: seq<Node>)
    ensures forall n :: n in CleanNodes(nodes) ==> exists m :: m in nodes && m.kind == n.kind
    ensures forall m :: m in nodes ==> exists n :: n in CleanNodes(nodes) && n.kind == m.kind
  {
    forall n | n in CleanNodes(nodes) ensures exists m :: m in nodes && m.kind == n.kind {
      var m := CleanMember(nodes, n);
    }
    forall m | m in nodes ensures exists n :: n in CleanNodes(nodes) && n.kind == m.kind {
      CleanedMember(nodes, m);
    }
  }

  /** The rest of the program is as it was. */
  lemma {:induction false} RestKept(p: GeometryProgram)
    ensures var q := Normalised(p);
            q == p.(nodes := CleanNodes(p.nodes), construction := AddProfiles(p.construction, p.nodes), adjustments := q.adjustments)
  {
  }

  lemma {:induction false} ExactCleaned(p: GeometryProgram)
    ensures ExactIsAlone(Normalised(p)) <==> ExactIsAlone(p)
  {
    RestKept(p);
    SameExact(p);
    if HasExactAsset(p) && |p.nodes| == 1 {
      assert p.nodes[0].kind.ExactAsset?;
      ListedAre(p.construction, p.nodes);
    }
  }

  lemma {:induction false} SameExact(p: GeometryProgram)
    ensures HasExactAsset(Normalised(p)) <==> HasExactAsset(p)
  {
    KindsCleaned(p.nodes);
  }

  lemma {:induction false} VersionCleaned(p: GeometryProgram)
    ensures VersionOk(Normalised(p)) <==> VersionOk(p)
  {
    RestKept(p);
    EarlyCleaned(p.nodes);
    if EarlyKinds(p.nodes) {
      ListedAre(p.construction, p.nodes);
    }
  }

  predicate EarlyKinds(nodes: seq<Node>) { forall n :: n in nodes ==> Version1Kind(n.kind) || n.kind.ExactAsset? }

  lemma {:induction false} EarlyCleaned(nodes: seq<Node>)
    ensures EarlyKinds(CleanNodes(nodes)) <==> EarlyKinds(nodes)
  {
    if EarlyKinds(nodes) {
      forall n | n in CleanNodes(nodes) ensures Version1Kind(n.kind) || n.kind.ExactAsset? {
        var before := CleanMember(nodes, n);
      }
    }
    if EarlyKinds(CleanNodes(nodes)) {
      forall n | n in nodes ensures Version1Kind(n.kind) || n.kind.ExactAsset? {
        CleanedMember(nodes, n);
      }
    }
  }

  lemma {:induction false} AnchorsCleaned(p: GeometryProgram)
    ensures AnchorsOk(Normalised(p)) <==> AnchorsOk(p)
  {
    RestKept(p);
    IdsCleaned(p.nodes);
  }

  lemma {:induction false} ConstructionCleaned(p: GeometryProgram)
    ensures ConstructionOk(Normalised(p)) <==> NoRepeats(p.construction) && Members(p.construction) <= Ids(p.nodes)
  {
    IdsCleaned(p.nodes);
    ListedAre(p.construction, p.nodes);
    forall n | n in Normalised(p).nodes && n.kind.Profile? ensures n.id in Normalised(p).construction {
      var before := CleanMember(p.nodes, n);
      assert n.id in Members(AddProfiles(p.construction, p.nodes));
    }
  }

  lemma {:induction false} SemanticsCleaned(p: GeometryProgram)
    requires UniqueIds(p.nodes)
    ensures SemanticsOk(Normalised(p)) <==> RolesOk(p)
  {
    var q := Normalised(p);
    RolesCleaned(p.nodes, p.role);
    forall n | n in q.nodes && n.role == Some(p.role) ensures n in p.nodes && !n.kind.Profile? {
      var before := CleanMember(p.nodes, n);
    }
    forall n | n in p.nodes && !n.kind.Profile? ensures n in q.nodes && (n.id in q.construction <==> n.id in p.construction) {
      CleanedMember(p.nodes, n);
      ShapeStaysListed(p, n);
    }
  }

  lemma {:induction false} ShapeStaysListed(p: GeometryProgram, n: Node)
    requires UniqueIds(p.nodes) && n in p.nodes && !n.kind.Profile?
    ensures n.id in AddProfiles(p.construction, p.nodes) <==> n.id in p.construction
  {
    ListedAre(p.construction, p.nodes);
    ByIdHolds(p.nodes);
    assert n.id in Members(AddProfiles(p.construction, p.nodes)) <==> n.id in Members(p.construction);
  }

  // ----- the theorem

  lemma {:induction false} CyclesCleaned(p: GeometryProgram)
    requires AllChecked(Normalised(p))
    ensures var nodes := ById(Normalised(p).nodes);
            Acyclic(PrunedGraph(ById(p.nodes))) <==>
              && Acyclic(PointerGraph(Pointers(Parents(nodes))))
              && Acyclic(PointerGraph(InstanceSources(nodes)))
              && Acyclic(DependencyGraph(nodes))
  {
    var q := Normalised(p);
    ByIdCleaned(p.nodes);
    GraphCleaned(ById(p.nodes));
    ReferencesStayInside(q);
    if Acyclic(DependencyGraph(ById(q.nodes))) {
      PointerWalksAreRedundant(ById(q.nodes));
    }
  }

  /** The normalised program has sound structure exactly when the given one is repairable. */
  lemma {:induction false} NormalisedIsSoundIff(p: GeometryProgram)
    ensures StructureOk(Normalised(p)) <==> Repairable(p)
  {
    RestKept(p);
    IdsCleaned(p.nodes);
    ExactCleaned(p);
    VersionCleaned(p);
    ChecksCleaned(p);
    ConstructionCleaned(p);
    AnchorsCleaned(p);
    if UniqueIds(p.nodes) {
      SemanticsCleaned(p);
    }
    if ShapesOk(p) {
      CyclesCleaned(p);
    }
    SoundByParts(Normalised(p));
  }

  /** A program that was sound stays as it is, and so sound. */
  lemma {:induction false} SoundIsRepairable(p: GeometryProgram)
    requires StructureOk(p)
    ensures Normalised(p) == p && Repairable(p)
  {
    forall n | n in p.nodes && n.kind.Profile? ensures Clean(n) && n.id in p.construction {
      assert SourcesOk(n, ById(p.nodes));
    }
    NormalisedIffOk(p);
    NormalisedIsSoundIff(p);
  }

  lemma {:induction false} SoundByParts(q: GeometryProgram)
    ensures StructureOk(q) <==>
              && ExactIsAlone(q) && UniqueIds(q.nodes) && NoRepeats(q.materials) && VersionOk(q) && AllChecked(q)
              && Acyclic(PointerGraph(Pointers(Parents(ById(q.nodes)))))
              && Acyclic(PointerGraph(InstanceSources(ById(q.nodes))))
              && Acyclic(DependencyGraph(ById(q.nodes)))
              && ConstructionOk(q) && AnchorsOk(q) && SemanticsOk(q)
  {
  }

  lemma {:induction false} FieldsCleaned(p: GeometryProgram)
    ensures ProgramFieldsOk(Normalised(p)) <==> RepairableFields(p)
  {
    var q := Normalised(p);
    assert TransformOk(IDENTITY);
    if RepairableFields(p) {
      forall n | n in q.nodes ensures NodeOk(n) {
        var before := CleanMember(p.nodes, n);
      }
    }
    if ProgramFieldsOk(q) {
      forall n | n in p.nodes ensures if n.kind.Profile? then n.id != "" && KindOk(n.kind) else NodeOk(n) {
        CleanedMember(p.nodes, n);
      }
    }
  }

  /** So the validator accepts it, size limit apart, exactly when its fields are in order too. */
  lemma {:induction false} NormalisedIsValidIff(sqrt: real -> real, p: GeometryProgram)
    ensures Valid(sqrt, Unbounded(Normalised(p))) <==> RepairableFields(p) && Repairable(p)
  {
    FieldsCleaned(p);
    NormalisedIsSoundIff(p);
    if ProgramFieldsOk(Normalised(p)) {
      MaximumIsSeparate(sqrt, Normalised(p));
    }
  }
}
