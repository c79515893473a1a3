/** The two deterministic repair passes of the planner: the uniform fit into the maximum
    dimensions, and the lift of visible roots to the ground. Each is a motion of roots. */
module Repair {
  import opened Graphs
  import opened Program
  import opened Motions
  import opened Validator

  // ----- moving the roots of a program

  function MoveList(moves: Moves, nodes: seq<Node>): (r: seq<Node>)
    ensures |r| == |nodes|
  {
    seq(|nodes|, i requires 0 <= i < |nodes| => MoveNode(moves, nodes[i]))
  }

  function MoveProgram(moves: Moves, p: GeometryProgram, note: string): GeometryProgram {
    p.(nodes := MoveList(moves, p.nodes), adjustments := p.adjustments + [note])
  }

  function Unbounded(p: GeometryProgram): GeometryProgram { p.(maximum := None) }

  ghost predicate Valid(sqrt: real -> real, p: GeometryProgram) { ProgramFieldsOk(p) && Accepts(sqrt, p) }

  predicate VisibleRoot(n: Node, hidden: set<string>) { n.parent.None? && n.id !in hidden }

  lemma {:induction false} ByIdMoves(moves: Moves, nodes: seq<Node>)
    ensures ById(MoveList(moves, nodes)) == MoveNodes(moves, ById(nodes))
  {
    if nodes != [] {
      var init := nodes[..|nodes| - 1];
      ByIdMoves(moves, init);
      assert MoveList(moves, nodes)[..|nodes| - 1] == MoveList(moves, init);
    }
  }

  lemma {:induction false} IdsKept(moves: Moves, nodes: seq<Node>)
    ensures Ids(MoveList(moves, nodes)) == Ids(nodes)
    ensures NodeOrder(MoveList(moves, nodes)) == NodeOrder(nodes)
    ensures UniqueIds(nodes) <==> UniqueIds(MoveList(moves, nodes))
  {
    var moved := MoveList(moves, nodes);
    assert forall i :: 0 <= i < |nodes| ==> moved[i].id == nodes[i].id;
    forall n | n in nodes ensures n.id in Ids(moved) {
      var i :| 0 <= i < |nodes| && nodes[i] == n;
      assert moved[i] in moved;
    }
  }

  lemma {:induction false} MemberMoved(moves: Moves, nodes: seq<Node>, n: Node) returns (before: Node)
    requires n in MoveList(moves, nodes)
    ensures before in nodes && n == MoveNode(moves, before)
  {
    var i :| 0 <= i < |nodes| && MoveList(moves, nodes)[i] == n;
    before := nodes[i];
  }

  lemma {:induction false} MemberMoves(moves: Moves, nodes: seq<Node>, n: Node)
    requires n in nodes
    ensures MoveNode(moves, n) in MoveList(moves, nodes)
  {
    var i :| 0 <= i < |nodes| && nodes[i] == n;
    assert MoveList(moves, nodes)[i] == MoveNode(moves, n);
  }

  // ----- the structure checks do not see transforms

  lemma {:induction false} ResolutionKept(moves: Moves, id: string, nodes: Nodes, visiting: set<string>)
    ensures ResolvesToMesh(id, MoveNodes(moves, nodes), visiting) == ResolvesToMesh(id, nodes, visiting)
    decreases nodes.Keys - visiting
  {
    if id !in visiting && id in nodes {
      match nodes[id].kind {
        case Instance(source) => ResolutionKept(moves, source, nodes, visiting + {id});
        case Array(source, _, _) => ResolutionKept(moves, source, nodes, visiting + {id});
        case Modified(source, _) => ResolutionKept(moves, source, nodes, visiting + {id});
        case _ =>
      }
    }
  }

  lemma {:induction false} SourceKept(moves: Moves, n: Node, source: string, nodes: Nodes)
    requires SourceIsMesh(n, source, nodes)
    ensures SourceIsMesh(MoveNode(moves, n), source, MoveNodes(moves, nodes))
  {
    ResolutionKept(moves, source, nodes, {});
  }

  lemma {:induction false} SourcesKept(moves: Moves, n: Node, nodes: Nodes)
    requires SourcesOk(n, nodes) && (n.kind.Profile? ==> n.id !in moves)
    ensures SourcesOk(MoveNode(moves, n), MoveNodes(moves, nodes))
  {
    if n.kind.Array? || n.kind.Modified? {
      SourceKept(moves, n, n.kind.source, nodes);
    } else if n.kind.Boolean? {
      SourceKept(moves, n, n.kind.left, nodes);
      SourceKept(moves, n, n.kind.right, nodes);
    }
  }

  lemma {:induction false} RolesKept(moves: Moves, nodes: seq<Node>, role: string)
    ensures RoleCount(MoveList(moves, nodes), role) == RoleCount(nodes, role)
  {
    if nodes != [] {
      RolesKept(moves, nodes[..|nodes| - 1], role);
      assert MoveList(moves, nodes)[..|nodes| - 1] == MoveList(moves, nodes[..|nodes| - 1]);
    }
  }

  /** The motion takes a program with sound structure to one with sound structure. */
  lemma {:induction false} StructureKept(moves: Moves, p: GeometryProgram, note: string)
    requires StructureOk(p) && moves.Keys !! Members(p.construction)
    ensures StructureOk(MoveProgram(moves, p, note))
  {
    IdsKept(moves, p.nodes);
    ByIdMoves(moves, p.nodes);
    ListingKept(moves, p, note);
    NodesKept(moves, p);
    CyclesKept(moves, ById(p.nodes));
    RolesKept(moves, p.nodes, p.role);
    OtherChecksKept(moves, p, note);
  }

  lemma {:induction false} NodesKept(moves: Moves, p: GeometryProgram)
    requires forall n :: n in p.nodes ==> AttachmentsOk(n, Ids(p.nodes), p.materials)
    requires forall n :: n in p.nodes ==> SourcesOk(n, ById(p.nodes))
    requires ConstructionOk(p) && moves.Keys !! Members(p.construction)
    ensures forall n :: n in MoveList(moves, p.nodes) ==> AttachmentsOk(n, Ids(p.nodes), p.materials)
    ensures forall n :: n in MoveList(moves, p.nodes) ==> SourcesOk(n, MoveNodes(moves, ById(p.nodes)))
  {
    forall n | n in MoveList(moves, p.nodes)
      ensures AttachmentsOk(n, Ids(p.nodes), p.materials) && SourcesOk(n, MoveNodes(moves, ById(p.nodes)))
    {
      var before := MemberMoved(moves, p.nodes, n);
      SourcesKept(moves, before, ById(p.nodes));
    }
  }

  lemma {:induction false} CyclesKept(moves: Moves, nodes: Nodes)
    ensures Parents(MoveNodes(moves, nodes)) == Parents(nodes)
    ensures InstanceSources(MoveNodes(moves, nodes)) == InstanceSources(nodes)
    ensures DependencyGraph(MoveNodes(moves, nodes)) == DependencyGraph(nodes)
  {
  }

  lemma {:induction false} ListingKept(moves: Moves, p: GeometryProgram, note: string)
    requires ExactIsAlone(p) && VersionOk(p)
    ensures ExactIsAlone(MoveProgram(moves, p, note)) && VersionOk(MoveProgram(moves, p, note))
    ensures HasExactAsset(MoveProgram(moves, p, note)) <==> HasExactAsset(p)
  {
    var q := MoveProgram(moves, p, note);
    forall n | n in q.nodes ensures exists before :: before in p.nodes && before.kind == n.kind {
      var before := MemberMoved(moves, p.nodes, n);
    }
    forall n | n in p.nodes ensures exists after :: after in q.nodes && after.kind == n.kind {
      MemberMoves(moves, p.nodes, n);
    }
  }

  lemma {:induction false} OtherChecksKept(moves: Moves, p: GeometryProgram, note: string)
    requires ConstructionOk(p) && AnchorsOk(p) && SemanticsOk(p)
    requires Ids(MoveList(moves, p.nodes)) == Ids(p.nodes)
    requires RoleCount(MoveList(moves, p.nodes), p.role) == RoleCount(p.nodes, p.role)
    ensures ConstructionOk(MoveProgram(moves, p, note)) && AnchorsOk(MoveProgram(moves, p, note))
    ensures SemanticsOk(MoveProgram(moves, p, note))
  {
    var q := MoveProgram(moves, p, note);
    forall n | n in q.nodes
      ensures n.kind.Profile? ==> n.id in q.construction
      ensures n.role == Some(q.role) ==> n.id !in q.construction
    {
      var before := MemberMoved(moves, p.nodes, n);
    }
  }

  /** The field checks after a motion are the transforms' own. */
  lemma {:induction false} FieldsKept(moves: Moves, p: GeometryProgram, note: string)
    requires ProgramFieldsOk(p) && |p.adjustments| < 16
    requires forall n :: n in p.nodes && n.id in moves ==> NodeOk(MoveNode(moves, n))
    ensures ProgramFieldsOk(MoveProgram(moves, p, note))
  {
    forall n | n in MoveList(moves, p.nodes) ensures NodeOk(n) {
      var before := MemberMoved(moves, p.nodes, n);
    }
  }

  lemma {:induction false} MaximumIsSeparate(sqrt: real -> real, p: GeometryProgram)
    requires ProgramFieldsOk(p)
    ensures ProgramFieldsOk(Unbounded(p))
    ensures StructureOk(p) <==> StructureOk(Unbounded(p))
    ensures Accepts(sqrt, Unbounded(p)) <==> StructureOk(p)
    ensures Accepts(sqrt, p) <==> StructureOk(p) && (ReferencesStayInside(p); FieldsCarryOver(p); DimensionsOk(sqrt, p))
  {
  }
}
