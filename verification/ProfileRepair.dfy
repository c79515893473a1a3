/** The normalisation of profile definitions that runs before the graph is validated. */
module ProfileRepair {
  import opened Affine
  import opened Graphs
  import opened Program
  import opened Validator

  const PROFILE_NOTE := "Canonicalized transform-free geometry profile definition(s)."

  /** What the validator demands of a profile node itself. */
  predicate Clean(n: Node) { n.parent.None? && n.material.None? && n.role.None? && n.transform == IDENTITY }

  function CleanNode(n: Node): Node {
    if n.kind.Profile? then n.(parent := None, material := None, role := None, transform := IDENTITY) else n
  }

  function CleanNodes(nodes: seq<Node>): seq<Node> {
    seq(|nodes|, i requires 0 <= i < |nodes| => CleanNode(nodes[i]))
  }

  /** Each profile not yet listed joins the construction nodes, in node order. */
  function AddProfiles(construction: seq<string>, nodes: seq<Node>): seq<string> {
    if nodes == [] then construction
    else
      var before, last := AddProfiles(construction, nodes[..|nodes| - 1]), nodes[|nodes| - 1];
      if last.kind.Profile? && last.id !in before then before + [last.id] else before
  }

  /** Every profile node is bare and listed. */
  predicate ProfilesOk(nodes: seq<Node>, construction: seq<string>) {
    forall n :: n in nodes && n.kind.Profile? ==> Clean(n) && n.id in construction
  }

  function Normalised(p: GeometryProgram): GeometryProgram {
    var repaired := p.(nodes := CleanNodes(p.nodes), construction := AddProfiles(p.construction, p.nodes));
    if ProfilesOk(p.nodes, p.construction) || |p.adjustments| >= 16 then repaired
    else repaired.(adjustments := p.adjustments + [PROFILE_NOTE])
  }

  class Draft {
    var program: GeometryProgram

    constructor (p: GeometryProgram)
      ensures program == p
    {
      program := p;
    }

    method NormalizeProfiles()
      modifies this
      ensures program == Normalised(old(program))
    {
      ghost var before := program;
      var changed := CleanAll();
      var added := ListAll();
      if (changed || added) && |program.adjustments| < 16 {
        program := program.(adjustments := program.adjustments + [PROFILE_NOTE]);
      }
      CleanKeepsProfiles(before.construction, before.nodes);
    }

    method CleanAll() returns (changed: bool)
      modifies this
      ensures program == old(program).(nodes := CleanNodes(old(program.nodes)))
      ensures changed <==> exists n :: n in old(program.nodes) && n.kind.Profile? && !Clean(n)
    {
      ghost var nodes := program.nodes;
      changed := false;
      for i := 0 to |program.nodes|
        invariant program == old(program).(nodes := program.nodes) && |program.nodes| == |nodes|
        invariant forall j :: 0 <= j < i ==> program.nodes[j] == CleanNode(nodes[j])
        invariant forall j :: i <= j < |nodes| ==> program.nodes[j] == nodes[j]
        invariant changed <==> exists j :: 0 <= j < i && nodes[j].kind.Profile? && !Clean(nodes[j])
      {
        if program.nodes[i].kind.Profile? {
          changed := changed || !Clean(program.nodes[i]);
          program := program.(nodes := program.nodes[i := CleanNode(program.nodes[i])]);
        }
      }
      assert program.nodes == CleanNodes(nodes);
    }

    method ListAll() returns (added: bool)
      modifies this
      ensures program == old(program).(construction := AddProfiles(old(program.construction), old(program.nodes)))
      ensures added <==> exists n :: n in old(program.nodes) && n.kind.Profile? && n.id !in old(program.construction)
    {
      ghost var construction := program.construction;
      added := false;
      for i := 0 to |program.nodes|
        invariant program == old(program).(construction := program.construction)
        invariant program.construction == AddProfiles(construction, program.nodes[..i])
        invariant added <==> program.construction != construction
      {
        assert program.nodes[..i + 1][..i] == program.nodes[..i];
        AddedStay(construction, program.nodes[..i]);
        var n := program.nodes[i];
        if n.kind.Profile? && n.id !in program.construction {
          program := program.(construction := program.construction + [n.id]);
          added := true;
        }
      }
      assert program.nodes[..|program.nodes|] == program.nodes;
      AddedIffMissing(construction, program.nodes);
    }
  }

  lemma {:induction false} AddedStay(construction: seq<string>, nodes: seq<Node>)
    ensures construction <= AddProfiles(construction, nodes)
    ensures forall n :: n in nodes && n.kind.Profile? ==> n.id in AddProfiles(construction, nodes)
  {
    if nodes != [] {
      AddedStay(construction, nodes[..|nodes| - 1]);
      assert nodes == nodes[..|nodes| - 1] + [nodes[|nodes| - 1]];
    }
  }

  lemma {:induction false} AddedIffMissing(construction: seq<string>, nodes: seq<Node>)
    ensures AddProfiles(construction, nodes) == construction <==>
              forall n :: n in nodes && n.kind.Profile? ==> n.id in construction
  {
    AddedStay(construction, nodes);
    if nodes != [] {
      AddedIffMissing(construction, nodes[..|nodes| - 1]);
      AddedStay(construction, nodes[..|nodes| - 1]);
      assert nodes == nodes[..|nodes| - 1] + [nodes[|nodes| - 1]];
    }
  }

  lemma {:induction false} CleanKeepsProfiles(construction: seq<string>, nodes: seq<Node>)
    ensures AddProfiles(construction, CleanNodes(nodes)) == AddProfiles(construction, nodes)
    ensures (exists n :: n in CleanNodes(nodes) && n.kind.Profile? && n.id !in construction) <==>
              exists n :: n in nodes && n.kind.Profile? && n.id !in construction
  {
    AddedIffMissing(construction, nodes);
    AddedIffMissing(construction, CleanNodes(nodes));
    if nodes != [] {
      CleanKeepsProfiles(construction, nodes[..|nodes| - 1]);
      assert CleanNodes(nodes)[..|nodes| - 1] == CleanNodes(nodes[..|nodes| - 1]);
    }
  }

  /** The pass leaves exactly those programs alone whose profiles pass the validator. */
  lemma {:induction false} NormalisedIffOk(p: GeometryProgram)
    ensures Normalised(p) == p <==> ProfilesOk(p.nodes, p.construction)
  {
    AddedIffMissing(p.construction, p.nodes);
    if ProfilesOk(p.nodes, p.construction) {
      assert forall i :: 0 <= i < |p.nodes| ==> p.nodes[i] in p.nodes;
      assert CleanNodes(p.nodes) == p.nodes;
    }
    if Normalised(p) == p {
      forall n | n in p.nodes && n.kind.Profile? ensures Clean(n) && n.id in p.construction {
        var i :| 0 <= i < |p.nodes| && p.nodes[i] == n;
        assert CleanNodes(p.nodes)[i] == n;
      }
    }
  }

  /** Afterwards every profile passes, nothing but profiles has changed, identifiers keep
      their places, and a second pass does nothing. */
  lemma {:induction false} NormalisedHolds(p: GeometryProgram)
    ensures var q := Normalised(p);
            && ProfilesOk(q.nodes, q.construction)
            && Normalised(q) == q
            && |q.nodes| == |p.nodes|
            && (forall i :: 0 <= i < |p.nodes| ==> q.nodes[i].id == p.nodes[i].id && q.nodes[i].kind == p.nodes[i].kind)
            && (forall i :: 0 <= i < |p.nodes| && !p.nodes[i].kind.Profile? ==> q.nodes[i] == p.nodes[i])
            && p.construction <= q.construction
            && (NoRepeats(p.construction) ==> NoRepeats(q.construction))
  {
    var q := Normalised(p);
    AddedStay(p.construction, p.nodes);
    if NoRepeats(p.construction) {
      AddedOnce(p.construction, p.nodes);
    }
    forall n | n in q.nodes && n.kind.Profile? ensures Clean(n) && n.id in q.construction {
      var i :| 0 <= i < |q.nodes| && q.nodes[i] == n;
      assert p.nodes[i] in p.nodes && n == CleanNode(p.nodes[i]);
    }
    NormalisedIffOk(q);
  }

  lemma {:induction false} AddedOnce(construction: seq<string>, nodes: seq<Node>)
    requires NoRepeats(construction)
    ensures NoRepeats(AddProfiles(construction, nodes))
  {
    if nodes != [] {
      AddedOnce(construction, nodes[..|nodes| - 1]);
    }
  }
}
