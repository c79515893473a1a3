/** Dependency waves: the schedule that the worker's compile loop and the specialist router
    both compute, and what it means: the longest-path layering of the graph. */
module Waves {
  import opened Graphs

  // ----- sorted order of identifiers

  predicate LexLeq(a: string, b: string) {
    a == "" || (b != "" && (a[0] < b[0] || (a[0] == b[0] && LexLeq(a[1..], b[1..]))))
  }

  lemma {:induction false} LexAntisymmetric(a: string, b: string)
    requires LexLeq(a, b) && LexLeq(b, a)
    ensures a == b
  {
    if a != "" && b != "" {
      LexAntisymmetric(a[1..], b[1..]);
      assert a == [a[0]] + a[1..] && b == [b[0]] + b[1..];
    }
  }

  lemma {:induction false} LexTotal(a: string, b: string)
    ensures LexLeq(a, b) || LexLeq(b, a)
  {
    if a != "" && b != "" {
      LexTotal(a[1..], b[1..]);
    }
  }

  lemma {:induction false} LexTransitive(a: string, b: string, c: string)
    requires LexLeq(a, b) && LexLeq(b, c)
    ensures LexLeq(a, c)
  {
    if a != "" && a[0] == b[0] && b[0] == c[0] {
      LexTransitive(a[1..], b[1..], c[1..]);
    }
  }

  predicate IsFirst(m: string, s: set<string>) {
    m in s && forall x :: x in s ==> LexLeq(m, x)
  }

  lemma {:induction false} FirstExists(s: set<string>)
    requires s != {}
    ensures exists m :: IsFirst(m, s)
  {
    var a :| a in s;
    LexTotal(a, a);
    if s == {a} {
      assert IsFirst(a, s);
    } else {
      FirstExists(s - {a});
      var b :| IsFirst(b, s - {a});
      LexTotal(a, b);
      var m := if LexLeq(a, b) then a else b;
      forall x | x in s ensures LexLeq(m, x) {
        if x != a {
          LexTransitive(m, b, x);
        }
      }
      assert IsFirst(m, s);
    }
  }

  function First(s: set<string>): (m: string)
    requires s != {}
    ensures IsFirst(m, s)
  {
    FirstExists(s);
    assert forall m, m' :: IsFirst(m, s) && IsFirst(m', s) ==> m == m' by {
      forall m, m' | IsFirst(m, s) && IsFirst(m', s) ensures m == m' {
        LexAntisymmetric(m, m');
      }
    }
    var m :| IsFirst(m, s);
    m
  }

  /** Python's sorted() on a set of identifiers. */
  function Sorted(s: set<string>): (r: seq<string>)
    ensures forall x :: x in r <==> x in s
    ensures forall i, j :: 0 <= i < j < |r| ==> LexLeq(r[i], r[j]) && r[i] != r[j]
    decreases |s|
  {
    if s == {} then []
    else
      var m := First(s);
      [m] + Sorted(s - {m})
  }

  // ----- the schedule

  function Ready(g: Graph, done: set<string>): set<string> {
    set v | v in g && v !in done && g[v] <= done
  }

  /** The sets of vertices that become ready together, from `done` on, or None when the loop
      is stuck. */
  function Schedule(g: Graph, done: set<string>): Option<seq<set<string>>>
    requires done <= g.Keys
    decreases g.Keys - done
  {
    if done == g.Keys then Some([])
    else
      var ready := Ready(g, done);
      if ready == {} then None
      else
        var rest := Schedule(g, done + ready);
        if rest.None? then None else Some([ready] + rest.value)
  }

  /** The waves as the loops list them, each one sorted. */
  function Listed(waves: seq<set<string>>): seq<seq<string>> {
    seq(|waves|, k requires 0 <= k < |waves| => Sorted(waves[k]))
  }

  lemma {:induction false} ListedGrows(waves: seq<set<string>>, wave: set<string>)
    ensures Listed(waves + [wave]) == Listed(waves) + [Sorted(wave)]
  {
  }

  ghost predicate InWave(waves: seq<set<string>>, k: int, v: string) {
    0 <= k < |waves| && v in waves[k]
  }

  /** `waves` are what the loop runs from `done` on. */
  ghost predicate Runs(g: Graph, done: set<string>, waves: seq<set<string>>)
    decreases |waves|
  {
    if waves == [] then done == g.Keys
    else waves[0] == Ready(g, done) && waves[0] != {} && Runs(g, done + waves[0], waves[1..])
  }

  lemma {:induction false} ScheduleRuns(g: Graph, done: set<string>)
    requires done <= g.Keys && Schedule(g, done).Some?
    ensures Runs(g, done, Schedule(g, done).value)
    decreases g.Keys - done
  {
    if done != g.Keys {
      ScheduleRuns(g, done + Ready(g, done));
    }
  }

  /** The number of the wave that holds each vertex, counting from k. */
  ghost function Placement(waves: seq<set<string>>, k: nat): map<string, nat> {
    if waves == [] then map[]
    else Placement(waves[1..], k + 1) + map v | v in waves[0] :: k
  }

  /** Dependencies are placed strictly earlier. */
  ghost predicate Earlier(g: Graph, done: set<string>, at: map<string, nat>) {
    at.Keys <= g.Keys && forall v, d :: v in at && d in g[v] ==> d in done || (d in at && at[d] < at[v])
  }

  /** Past the first wave, some dependency is placed in the wave just before. */
  ghost predicate Tight(g: Graph, k: nat, at: map<string, nat>) {
    at.Keys <= g.Keys && forall v :: v in at && at[v] > k ==> exists d :: d in g[v] && d in at && at[d] == at[v] - 1
  }

  ghost predicate Places(g: Graph, done: set<string>, k: nat, at: map<string, nat>) {
    && at.Keys == g.Keys - done
    && (forall v :: v in at ==> at[v] >= k)
    && Earlier(g, done, at)
    && Tight(g, k, at)
  }

  lemma {:induction false} PlacementPlaces(g: Graph, done: set<string>, waves: seq<set<string>>, k: nat)
    requires Closed(g) && done <= g.Keys && Runs(g, done, waves)
    ensures Places(g, done, k, Placement(waves, k))
    decreases |waves|
  {
    if waves != [] {
      PlacementPlaces(g, done + waves[0], waves[1..], k + 1);
      PlaceOneWave(g, done, k, Placement(waves[1..], k + 1), Placement(waves, k));
    }
  }

  lemma {:induction false} PlaceOneWave(g: Graph, done: set<string>, k: nat, later: map<string, nat>, at: map<string, nat>)
    requires Closed(g) && done <= g.Keys
    requires Places(g, done + Ready(g, done), k + 1, later)
    requires at == later + map v | v in Ready(g, done) :: k
    ensures Places(g, done, k, at)
  {
    var ready := Ready(g, done);
    assert forall v :: v in at <==> v in later || v in ready;
    assert forall v :: v in ready ==> at[v] == k;
    assert forall v :: v in later ==> at[v] == later[v];
    forall v | v in at && at[v] > k ensures exists d :: d in g[v] && d in at && at[d] == at[v] - 1 {
      NotReadyBefore(g, done, k, later, v);
      var d :| d in g[v] && if at[v] == k + 1 then d in ready else d in later && later[d] == at[v] - 1;
      assert d in at;
    }
  }

  /** A vertex that waits one more wave waits for something that runs now. */
  lemma {:induction false} NotReadyBefore(g: Graph, done: set<string>, k: nat, later: map<string, nat>, v: string)
    requires Closed(g) && done <= g.Keys
    requires Places(g, done + Ready(g, done), k + 1, later) && v in later
    ensures later[v] == k + 1 ==> exists d :: d in g[v] && d in Ready(g, done)
    ensures later[v] > k + 1 ==> exists d :: d in g[v] && d in later && later[d] == later[v] - 1
  {
    if later[v] == k + 1 {
      assert v !in done && v !in Ready(g, done);
      var d :| d in g[v] && d !in done;
      assert d !in later;
    }
  }

  lemma {:induction false} LaterIsAfter(g: Graph, done: set<string>, waves: seq<set<string>>, k: nat)
    requires Closed(g) && done <= g.Keys && Runs(g, done, waves) && waves != []
    ensures var later := Placement(waves[1..], k + 1); later.Keys !! waves[0] && forall u :: u in later ==> later[u] > k
  {
    PlacementPlaces(g, done + waves[0], waves[1..], k + 1);
  }

  lemma {:induction false} FirstOrLater(waves: seq<set<string>>, k: nat, v: string)
    requires waves != []
    ensures v in Placement(waves, k) <==> v in waves[0] || v in Placement(waves[1..], k + 1)
    ensures v in waves[0] ==> Placement(waves, k)[v] == k
    ensures v in Placement(waves[1..], k + 1) && v !in waves[0] ==> Placement(waves, k)[v] == Placement(waves[1..], k + 1)[v]
  {
  }

  lemma {:induction false} WavesHoldPlacement(g: Graph, done: set<string>, waves: seq<set<string>>, k: nat,
                                              i: int, v: string)
    requires Closed(g) && done <= g.Keys && Runs(g, done, waves)
    ensures InWave(waves, i, v) <==> i >= 0 && v in Placement(waves, k) && Placement(waves, k)[v] == k + i
    decreases |waves|
  {
    if waves != [] {
      LaterIsAfter(g, done, waves, k);
      FirstOrLater(waves, k, v);
      if i > 0 {
        WavesHoldPlacement(g, done + waves[0], waves[1..], k + 1, i - 1, v);
        assert InWave(waves, i, v) <==> InWave(waves[1..], i - 1, v);
      }
    }
  }

  // ----- stuck exactly on cycles

  lemma {:induction false} StuckIsTrapped(g: Graph, done: set<string>) returns (s: set<string>)
    requires Closed(g) && done <= g.Keys && Schedule(g, done).None?
    ensures Trapped(g, s)
    decreases g.Keys - done
  {
    var ready := Ready(g, done);
    if ready == {} {
      s := g.Keys - done;
      forall v | v in s ensures g[v] * s != {} {
        assert v !in ready;
        var d :| d in g[v] && d !in done;
        assert d in g[v] * s;
      }
    } else {
      s := StuckIsTrapped(g, done + ready);
    }
  }

  /** The wave loop gets stuck exactly on the cyclic graphs, and having no numbering is the
      same as holding a cycle. */
  lemma {:induction false} ScheduleIffAcyclic(g: Graph)
    requires Closed(g)
    ensures Schedule(g, {}).Some? <==> Acyclic(g)
    ensures Acyclic(g) <==> !HasCycle(g)
  {
    if Schedule(g, {}).Some? {
      var waves := Schedule(g, {}).value;
      ScheduleRuns(g, {});
      PlacementPlaces(g, {}, waves, 0);
      assert Ranks(g, Placement(waves, 0));
    } else {
      var s := StuckIsTrapped(g, {});
      TrappedHasCycle(g, s);
    }
    forall path | Cycle(g, path) ensures !Acyclic(g) {
      CycleIsNotAcyclic(g, path);
    }
  }

  // ----- longest-path layering

  lemma {:induction false} ChainBelow(g: Graph, at: map<string, nat>, v: string) returns (path: seq<string>)
    requires Closed(g) && at.Keys == g.Keys && Tight(g, 0, at) && v in at
    ensures Chain(g, path) && path[0] == v && |path| == at[v] + 1
    decreases at[v]
  {
    if at[v] == 0 {
      path := [v];
    } else {
      var d :| d in g[v] && d in at && at[d] == at[v] - 1;
      var tail := ChainBelow(g, at, d);
      path := [v] + tail;
    }
  }

  /** k is the number of dependencies on the longest chain that starts at v. */
  ghost predicate LongestChain(g: Graph, v: string, k: nat) {
    && (exists path :: Chain(g, path) && path[0] == v && |path| == k + 1)
    && forall path :: Chain(g, path) && path[0] == v ==> |path| <= k + 1
  }

  /** k is the least number that a numbering with strictly earlier dependencies can give v. */
  ghost predicate LeastNumber(g: Graph, v: string, k: nat) {
    && v in g
    && (forall rank :: Ranks(g, rank) ==> k <= rank[v])
    && exists rank :: Ranks(g, rank) && rank[v] == k
  }

  lemma {:induction false} TightIsLeast(g: Graph, at: map<string, nat>, v: string)
    requires Closed(g) && at.Keys == g.Keys && Ranks(g, at) && Tight(g, 0, at) && v in g
    ensures LongestChain(g, v, at[v]) && LeastNumber(g, v, at[v])
    ensures at[v] < |g|
  {
    var longest := ChainBelow(g, at, v);
    forall path | Chain(g, path) && path[0] == v ensures |path| <= at[v] + 1 {
      ChainDescends(g, at, path);
    }
    forall rank | Ranks(g, rank) ensures at[v] <= rank[v] {
      ChainDescends(g, rank, longest);
    }
    ChainIsShort(g, longest);
  }

  /** Every vertex is in exactly one wave, whose number is the length of its longest
      dependency chain and the least number that any acceptable numbering can give it.
      There are no more waves than vertices. */
  lemma {:induction false} WaveIsLongestChain(g: Graph, waves: seq<set<string>>, v: string) returns (k: nat)
    requires Closed(g) && Schedule(g, {}) == Some(waves) && v in g
    ensures forall i :: InWave(waves, i, v) <==> i == k
    ensures LongestChain(g, v, k) && LeastNumber(g, v, k) && k < |g|
  {
    ScheduleRuns(g, {});
    var at := NumberOf(g, waves);
    k := at[v];
    TightIsLeast(g, at, v);
  }

  lemma {:induction false} NumberOf(g: Graph, waves: seq<set<string>>) returns (at: map<string, nat>)
    requires Closed(g) && Runs(g, {}, waves)
    ensures at.Keys == g.Keys && Ranks(g, at) && Tight(g, 0, at)
    ensures forall i, v :: v in g ==> (InWave(waves, i, v) <==> i == at[v])
  {
    at := Placement(waves, 0);
    PlacementPlaces(g, {}, waves, 0);
    forall i, v | v in g ensures InWave(waves, i, v) <==> i == at[v] {
      WavesHoldPlacement(g, {}, waves, 0, i, v);
    }
  }

  /** Numbering every vertex by its wave ranks the graph, below every other ranking. */
  lemma {:induction false} WaveNumbersAreLeast(g: Graph, waves: seq<set<string>>, w: map<string, nat>)
    requires Closed(g) && Schedule(g, {}) == Some(waves)
    requires w.Keys == g.Keys && forall v :: v in g ==> InWave(waves, w[v], v)
    ensures Ranks(g, w)
    ensures forall v :: v in g ==> LeastNumber(g, v, w[v]) && w[v] < |g|
  {
    ScheduleRuns(g, {});
    var at := NumberOf(g, waves);
    forall v | v in g ensures w[v] == at[v] && LeastNumber(g, v, at[v]) && at[v] < |g| {
      assert InWave(waves, w[v], v);
      TightIsLeast(g, at, v);
    }
  }

  // ----- a wave loop in progress

  /** `ran` are the waves run so far and `done` their vertices; the rest of the schedule is
      still ahead. */
  ghost predicate InProgress(g: Graph, ran: seq<set<string>>, done: set<string>) {
    && done <= g.Keys
    && (Schedule(g, {}).Some? <==> Schedule(g, done).Some?)
    && (Schedule(g, done).Some? ==> Schedule(g, {}).value == ran + Schedule(g, done).value)
  }

  lemma {:induction false} NothingStarted(g: Graph)
    ensures InProgress(g, [], {})
  {
    if Schedule(g, {}).Some? {
      assert [] + Schedule(g, {}).value == Schedule(g, {}).value;
    }
  }

  lemma {:induction false} RunWave(g: Graph, ran: seq<set<string>>, done: set<string>)
    requires InProgress(g, ran, done) && Ready(g, done) != {}
    ensures InProgress(g, ran + [Ready(g, done)], done + Ready(g, done))
  {
    var ready := Ready(g, done);
    var rest := Schedule(g, done + ready);
    if rest.Some? {
      assert ran + ([ready] + rest.value) == (ran + [ready]) + rest.value;
    }
  }

  lemma {:induction false} WaveLoopEnds(g: Graph, ran: seq<set<string>>, done: set<string>)
    requires InProgress(g, ran, done)
    ensures done == g.Keys ==> Schedule(g, {}) == Some(ran)
    ensures done != g.Keys && Ready(g, done) == {} ==> Schedule(g, {}).None?
  {
    if done == g.Keys {
      assert ran + [] == ran;
    }
  }
}
