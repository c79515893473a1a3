/** The two contracts that accept a wave numbering someone else made: the design blueprint's
    and the specialist route plan's. Both accept exactly the numberings in which every
    dependency is strictly earlier, so both accept what the router computes, and neither
    accepts a numbering with an earlier wave for any domain. */
module WaveContracts {
  import opened Graphs
  import opened Waves
  import opened Router

  // ----- design blueprint

  datatype Decision = Decision(domain: string, dependsOn: seq<string>, wave: nat)

  predicate DistinctDomains(decisions: seq<Decision>) {
    forall i, j :: 0 <= i < j < |decisions| ==> decisions[i].domain != decisions[j].domain
  }

  function Domains(decisions: seq<Decision>): set<string> { set x | x in decisions :: x.domain }

  /** The part of the blueprint validator that concerns domains, dependencies and waves. The
      look-up by domain is a search, which distinct domains make unambiguous. */
  predicate BlueprintAccepts(decisions: seq<Decision>, required: seq<string>) {
    && DistinctDomains(decisions)
    && NoRepeats(required) && Members(required) <= Domains(decisions)
    && forall x :: x in decisions ==>
         && Members(x.dependsOn) <= Domains(decisions)
         && forall y :: y in decisions && y.domain in x.dependsOn ==> y.wave < x.wave
  }

  /** The decisions are those of the graph g, numbered by w. */
  ghost predicate Describes(decisions: seq<Decision>, g: Graph, w: map<string, nat>) {
    && DistinctDomains(decisions)
    && Domains(decisions) == g.Keys == w.Keys
    && forall x :: x in decisions ==> g[x.domain] == Members(x.dependsOn) && w[x.domain] == x.wave
  }

  /** Accepted exactly when the waves rank the graph and the required domains, each listed
      once, have decisions. */
  lemma {:induction false} BlueprintAcceptsRanks(decisions: seq<Decision>, required: seq<string>, g: Graph, w: map<string, nat>)
    requires Describes(decisions, g, w)
    ensures BlueprintAccepts(decisions, required) <==> Ranks(g, w) && NoRepeats(required) && Members(required) <= g.Keys
  {
    if BlueprintAccepts(decisions, required) {
      forall v, d | v in g && d in g[v] ensures d in w && w[d] < w[v] {
        var x :| x in decisions && x.domain == v;
        assert d in Members(x.dependsOn);
        var y :| y in decisions && y.domain == d;
      }
    }
    if Ranks(g, w) {
      forall x | x in decisions
        ensures Members(x.dependsOn) <= Domains(decisions)
        ensures forall y :: y in decisions && y.domain in x.dependsOn ==> y.wave < x.wave
      {
        assert forall d :: d in x.dependsOn ==> d in g[x.domain];
      }
    }
  }

  // ----- specialist route plan against the registry

  datatype Step = Step(specialist: string, dependsOn: seq<string>, components: set<string>, wave: nat)

  /** The registry: what each specialist depends on, and the gates this domain requires. */
  datatype Registry = Registry(dependsOn: map<string, seq<string>>, requiredGates: set<string>)

  function Selected(steps: seq<Step>): set<string> { set x | x in steps :: x.specialist }

  predicate DistinctSteps(steps: seq<Step>) {
    forall i, j :: 0 <= i < j < |steps| ==> steps[i].specialist != steps[j].specialist
  }

  predicate PlanAccepts(steps: seq<Step>, registry: Registry, components: set<string>) {
    && DistinctSteps(steps)
    && Selected(steps) <= registry.dependsOn.Keys
    && registry.requiredGates <= Selected(steps)
    && forall x :: x in steps ==>
         && Members(registry.dependsOn[x.specialist]) <= Selected(steps)
         && x.components <= components
         && Members(x.dependsOn) == Members(registry.dependsOn[x.specialist])
         && forall y :: y in steps && y.specialist in x.dependsOn ==> y.wave < x.wave
  }

  /** The steps are selected from the registry, with its dependencies, and numbered by w. */
  ghost predicate Copies(steps: seq<Step>, registry: Registry, components: set<string>, w: map<string, nat>) {
    && DistinctSteps(steps)
    && Selected(steps) <= registry.dependsOn.Keys && registry.requiredGates <= Selected(steps)
    && w.Keys == Selected(steps)
    && forall x :: x in steps ==>
         && x.components <= components
         && Members(x.dependsOn) == Members(registry.dependsOn[x.specialist])
         && w[x.specialist] == x.wave
  }

  /** A plan whose steps copy the registry is accepted exactly when the registry's own graph
      is ranked by the plan's waves. */
  lemma {:induction false} PlanAcceptsRanks(steps: seq<Step>, registry: Registry, components: set<string>, waves: map<string, nat>)
    requires Copies(steps, registry, components, waves)
    ensures PlanAccepts(steps, registry, components) <==>
              Ranks(RequiredGraph(registry.dependsOn, Selected(steps)), waves)
  {
    var g := RequiredGraph(registry.dependsOn, Selected(steps));
    if PlanAccepts(steps, registry, components) {
      forall v, d | v in g && d in g[v] ensures d in waves && waves[d] < waves[v] {
        var x :| x in steps && x.specialist == v;
        var y :| y in steps && y.specialist == d;
        assert d in Members(x.dependsOn);
      }
    }
    if Ranks(g, waves) {
      forall x | x in steps
        ensures Members(registry.dependsOn[x.specialist]) <= Selected(steps)
        ensures forall y :: y in steps && y.specialist in x.dependsOn ==> y.wave < x.wave
      {
        assert forall d :: d in registry.dependsOn[x.specialist] ==> d in g[x.specialist];
        forall y | y in steps && y.specialist in x.dependsOn ensures y.wave < x.wave {
          assert y.specialist in Members(x.dependsOn);
        }
      }
    }
  }

  // ----- the router's waves against the contracts

  /** The router's numbering is one the blueprint accepts; its waves fit the contract's 0..31
      field when there are at most 32 domains; and no accepted numbering of the same
      decisions puts a domain in an earlier wave. */
  lemma {:induction false} RouterWavesAreLeastAccepted(decisions: seq<Decision>, required: seq<string>, g: Graph,
                                                       waves: seq<set<string>>, w: map<string, nat>)
    requires Closed(g) && Schedule(g, {}) == Some(waves)
    requires NoRepeats(required) && Members(required) <= g.Keys
    requires Describes(decisions, g, w) && forall v :: v in g ==> InWave(waves, w[v], v)
    ensures BlueprintAccepts(decisions, required)
    ensures |g| <= 32 ==> forall x :: x in decisions ==> x.wave <= 31
    ensures forall other, w', v :: Describes(other, g, w') && BlueprintAccepts(other, required) && v in g ==> w[v] <= w'[v]
  {
    WaveNumbersAreLeast(g, waves, w);
    BlueprintAcceptsRanks(decisions, required, g, w);
    forall other, w', v | Describes(other, g, w') && BlueprintAccepts(other, required) && v in g ensures w[v] <= w'[v] {
      BlueprintAcceptsRanks(other, required, g, w');
      assert LeastNumber(g, v, w[v]);
    }
    forall x | x in decisions ensures x.wave < |g| {
      assert w[x.domain] < |g|;
    }
  }

  /** The same for a route plan that copies the registry's dependencies. */
  lemma {:induction false} RouterWavesAreLeastPlanned(steps: seq<Step>, registry: Registry, components: set<string>,
                                   waves: seq<set<string>>, w: map<string, nat>)
    requires Copies(steps, registry, components, w)
    requires forall x :: x in steps ==> Members(registry.dependsOn[x.specialist]) <= Selected(steps)
    requires Schedule(RequiredGraph(registry.dependsOn, Selected(steps)), {}) == Some(waves)
    requires forall v :: v in Selected(steps) ==> InWave(waves, w[v], v)
    ensures PlanAccepts(steps, registry, components)
    ensures forall other, w', v ::
              (&& Copies(other, registry, components, w') && Selected(other) == Selected(steps)
               && PlanAccepts(other, registry, components) && v in Selected(steps)) ==> w[v] <= w'[v]
  {
    var g := RequiredGraph(registry.dependsOn, Selected(steps));
    WaveNumbersAreLeast(g, waves, w);
    PlanAcceptsRanks(steps, registry, components, w);
    forall other, w', v |
      && Copies(other, registry, components, w') && Selected(other) == Selected(steps)
      && PlanAccepts(other, registry, components) && v in Selected(steps)
      ensures w[v] <= w'[v]
    {
      PlanAcceptsRanks(other, registry, components, w');
      assert LeastNumber(g, v, w[v]);
    }
  }
}
