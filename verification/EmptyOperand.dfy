/** A valid program on which the worker stops: a boolean operand that an exact difference
    leaves empty. */
module EmptyOperand {
  import opened Affine
  import opened Graphs
  import opened Program
  import opened EnvelopeSound
  import opened Validator
  import opened Repair
  import opened Worker
  import opened SmallPrograms

  const CORE := Node("core", None, None, None, Shifted(ZERO), Cube(1.0))
  const SHELL := Node("shell", None, None, None, Shifted(ZERO), Cube(3.0))
  const REST := Node("rest", None, None, None, Shifted(ZERO), Boolean("core", "shell", Difference))
  const WHOLE := Node("whole", None, None, Some("main"), Shifted(ZERO), Boolean("rest", "shell", Union))
  const HOLLOW := Scene([CORE, SHELL, REST, WHOLE], [], None)

  ghost predicate Hollow(nodes: Nodes) {
    nodes == map["core" := CORE, "shell" := SHELL, "rest" := REST, "whole" := WHOLE]
  }

  lemma {:induction false} HollowLists()
    ensures Hollow(ById(HOLLOW.nodes)) && Ids(HOLLOW.nodes) == {"core", "shell", "rest", "whole"}
  {
    ListThree(CORE, SHELL, REST);
    ListMore([CORE, SHELL, REST], WHOLE);
    assert [CORE, SHELL, REST] + [WHOLE] == HOLLOW.nodes;
  }

  lemma {:induction false} BooleanFits(n: Node, nodes: Nodes, rank: map<string, nat>)
    requires n.id != "" && n.parent == None && n.material == None && n.transform == Shifted(ZERO) && n.kind.Boolean?
    requires n.kind.left != n.kind.right && n.id != n.kind.left && n.id != n.kind.right && n.id in rank
    requires n.kind.left in nodes && n.kind.left in rank && rank[n.kind.left] < rank[n.id]
    requires n.kind.right in nodes && n.kind.right in rank && rank[n.kind.right] < rank[n.id]
    requires ResolvesToMesh(n.kind.left, nodes, {}) == Mesh && ResolvesToMesh(n.kind.right, nodes, {}) == Mesh
    ensures NodeFits(n, nodes, [], rank)
  {
    assert ParentSet(n) + NodeDependencies(n.kind) == {n.kind.left, n.kind.right};
  }

  lemma {:induction false} HollowFit(nodes: Nodes, rank: map<string, nat>)
    requires Hollow(nodes) && rank == map["core" := 0, "shell" := 1, "rest" := 2, "whole" := 3]
    ensures NodeFits(CORE, nodes, [], rank) && NodeFits(SHELL, nodes, [], rank)
    ensures NodeFits(REST, nodes, [], rank) && NodeFits(WHOLE, nodes, [], rank)
  {
    CubeFits(CORE, 1.0, nodes, [], rank);
    CubeFits(SHELL, 3.0, nodes, [], rank);
    RestFits(nodes, rank);
    WholeFits(nodes, rank);
  }

  lemma {:induction false} RestFits(nodes: Nodes, rank: map<string, nat>)
    requires Hollow(nodes) && rank == map["core" := 0, "shell" := 1, "rest" := 2, "whole" := 3]
    ensures NodeFits(REST, nodes, [], rank)
  {
    BooleanFits(REST, nodes, rank);
  }

  lemma {:induction false} WholeFits(nodes: Nodes, rank: map<string, nat>)
    requires Hollow(nodes) && rank == map["core" := 0, "shell" := 1, "rest" := 2, "whole" := 3]
    ensures NodeFits(WHOLE, nodes, [], rank)
  {
    BooleanFits(WHOLE, nodes, rank);
  }

  lemma {:induction false} HollowIsSound(sqrt: real -> real)
    ensures Valid(sqrt, Unbounded(HOLLOW)) && Grounded(ById(HOLLOW.nodes))
  {
    var rank: map<string, nat> := map["core" := 0, "shell" := 1, "rest" := 2, "whole" := 3];
    HollowLists();
    HollowFit(ById(HOLLOW.nodes), rank);
    FourScene(CORE, SHELL, REST, WHOLE, rank);
    SceneIsSound(HOLLOW.nodes, [], rank, None);
    SceneIsValid(sqrt, HOLLOW.nodes, [], rank, None);
  }

  /** Nothing of the core is outside the shell, so an exact difference has no points. */
  lemma NothingIsLeft(p: Vec3)
    ensures InShape(CORE.kind.shape, p) ==> InShape(SHELL.kind.shape, p)
  {
  }

  /** The contract accepts the program; when the difference is empty, the worker cannot finish
      the union that uses it. */
  lemma {:induction false} EmptyOperandStops(sqrt: real -> real)
    ensures Valid(sqrt, Unbounded(HOLLOW)) && Grounded(ById(HOLLOW.nodes))
    ensures !OperandsFilled(ById(HOLLOW.nodes), {"rest"}) && !OperandsSafe(ById(HOLLOW.nodes))
  {
    HollowIsSound(sqrt);
    HollowLists();
    RestIsEmpty(ById(HOLLOW.nodes));
  }

  lemma {:induction false} RestIsEmpty(nodes: Nodes)
    requires Hollow(nodes) && Grounded(nodes)
    ensures !OperandsFilled(nodes, {"rest"}) && !OperandsSafe(nodes)
  {
    assert EmptyOf("rest", nodes, {"rest"}) && MayBeEmpty("rest", nodes);
    assert "rest" in NodeDependencies(WHOLE.kind);
    assert !OperandsHold("whole", nodes, {"rest"});
  }
}
