/** The specialist router: a registry of handlers with dependencies, run wave by wave on a
    bounded pool whose completion order is not under the router's control. */
module Router {
  import opened Graphs
  import opened Waves

  datatype Result<+T> = Ok(value: T) | Err(error: RoutingError)

  datatype RoutingError =
    | NoWorkers
    | DuplicateRegistration
    | DuplicateRequired
    | MissingDomains(domains: set<string>)
    | UnroutedDependencies(domain: string, missing: set<string>)
    | DependencyCycle(pending: seq<string>)
    | HandlerRaised(domain: string)
    | WrongDomain(domain: string, got: string)
    | DecisionsFailed(failed: seq<string>)

  /** What a handler does with the context of the call. */
  datatype Outcome = Raised | Returned(domain: string, status: string)

  datatype Registration = Registration(domain: string, dependsOn: seq<string>)

  predicate UniqueDomains(registrations: seq<Registration>) {
    forall i, j :: 0 <= i < j < |registrations| ==> registrations[i].domain != registrations[j].domain
  }

  /** One step of the pool. */
  datatype Event = Started(domain: string) | Finished(domain: string)

  predicate Answers(context: map<string, Outcome>, d: string) {
    d in context && context[d].Returned? && context[d].domain == d
  }

  predicate Passes(context: map<string, Outcome>, d: string) {
    Answers(context, d) && context[d].status != "failed"
  }

  /** The outcomes of some of the handlers. */
  function Outcomes(context: map<string, Outcome>, domains: set<string>): map<string, Outcome> {
    map d | d in domains && d in context :: context[d]
  }

  /** The dependency graph of the required domains. */
  function RequiredGraph(registry: map<string, seq<string>>, required: set<string>): Graph
    requires required <= registry.Keys
  {
    map d | d in required :: Members(registry[d])
  }

  /** The request is one the router does not refuse before running anything. */
  predicate WellPosed(registry: map<string, seq<string>>, required: seq<string>) {
    && NoRepeats(required)
    && Members(required) <= registry.Keys
    && forall d :: d in required ==> Members(registry[d]) <= Members(required)
  }

  // ----- what a pool run looks like from outside

  /** The handlers that are running after these events. */
  function Running(log: seq<Event>): set<string> {
    if log == [] then {}
    else
      var before := Running(log[..|log| - 1]);
      match log[|log| - 1]
      case Started(d) => before + {d}
      case Finished(d) => before - {d}
  }

  ghost predicate Bounded(log: seq<Event>, workers: nat) {
    forall i :: 0 <= i <= |log| ==> |Running(log[..i])| <= workers
  }

  /** No handler starts before each of its dependencies has finished and passed. */
  ghost predicate DependenciesFirst(log: seq<Event>, registry: map<string, seq<string>>,
                                    context: map<string, Outcome>) {
    forall i :: 0 <= i < |log| && log[i].Started? ==> MayStart(log[..i], registry, context, log[i].domain)
  }

  /** Everything d depends on has finished and passed by the end of the log. */
  ghost predicate MayStart(log: seq<Event>, registry: map<string, seq<string>>,
                           context: map<string, Outcome>, d: string) {
    d in registry && forall e :: e in registry[d] ==> Passes(context, e) && Finished(e) in log
  }

  lemma {:induction false} RunningAfter(log: seq<Event>, e: Event)
    ensures Running(log + [e]) == if e.Started? then Running(log) + {e.domain} else Running(log) - {e.domain}
  {
    assert (log + [e])[..|log|] == log;
  }

  lemma {:induction false} BoundedAfter(log: seq<Event>, e: Event, workers: nat)
    requires Bounded(log, workers) && |Running(log + [e])| <= workers
    ensures Bounded(log + [e], workers)
  {
    forall i | 0 <= i <= |log + [e]| ensures |Running((log + [e])[..i])| <= workers {
      if i <= |log| {
        assert (log + [e])[..i] == log[..i];
      } else {
        assert (log + [e])[..i] == log + [e];
      }
    }
  }

  /** The fixed data of a router call. */
  datatype Call = Call(registry: map<string, seq<string>>, context: map<string, Outcome>, workers: nat)

  /** A correct event log: the pool never runs more than `workers` handlers at a time, and
      starts none before its dependencies. */
  ghost predicate GoodLog(log: seq<Event>, call: Call) {
    Bounded(log, call.workers) && DependenciesFirst(log, call.registry, call.context)
  }

  lemma {:induction false} StartKeepsOrder(log: seq<Event>, registry: map<string, seq<string>>,
                        context: map<string, Outcome>, e: Event)
    requires DependenciesFirst(log, registry, context)
    requires e.Started? ==> MayStart(log, registry, context, e.domain)
    ensures DependenciesFirst(log + [e], registry, context)
  {
    var longer := log + [e];
    forall i | 0 <= i < |longer| && longer[i].Started?
      ensures MayStart(longer[..i], registry, context, longer[i].domain)
    {
      assert longer[..i] == log[..i];
      if i == |log| {
        assert log[..i] == log;
      }
    }
  }

  lemma {:induction false} LogOne(past: seq<Event>, log: seq<Event>, e: Event, call: Call)
    requires past <= log && GoodLog(log, call)
    requires e.Started? ==> MayStart(past, call.registry, call.context, e.domain)
    requires e.Started? ==> |Running(log) + {e.domain}| <= call.workers
    ensures past <= log + [e] && GoodLog(log + [e], call)
    ensures Running(log + [e]) == if e.Started? then Running(log) + {e.domain} else Running(log) - {e.domain}
  {
    RunningAfter(log, e);
    if e.Finished? {
      assert |Running(log)| <= call.workers by {
        assert log[..|log|] == log;
      }
      Shrinks(Running(log), e.domain);
    }
    BoundedAfter(log, e, call.workers);
    StartKeepsOrder(log, call.registry, call.context, e);
  }

  lemma {:induction false} Shrinks(s: set<string>, d: string)
    ensures |s - {d}| <= |s|
  {
    if d in s {
      assert s == (s - {d}) + {d};
    } else {
      assert s - {d} == s;
    }
  }

  // ----- the pool that runs one wave

  /** Handlers wait in the queue, run, finish, and are then collected into the results. */
  datatype Pool = Pool(queue: set<string>, running: set<string>, finished: set<string>, collected: set<string>,
                       log: seq<Event>, results: Result<map<string, Outcome>>)

  function Start(p: Pool, d: string): Pool {
    p.(queue := p.queue - {d}, running := p.running + {d}, log := p.log + [Started(d)])
  }

  function Finish(p: Pool, d: string): Pool {
    p.(running := p.running - {d}, finished := p.finished + {d}, log := p.log + [Finished(d)])
  }

  function Collect(p: Pool, d: string, outcome: Outcome): Pool
    requires p.results.Ok?
  {
    var results :=
      if outcome.Raised? then Err(HandlerRaised(d))
      else if outcome.domain != d then Err(WrongDomain(d, outcome.domain))
      else Ok(p.results.value[d := outcome]);
    p.(finished := p.finished - {d}, collected := p.collected + {d}, results := results)
  }

  ghost predicate PoolSets(p: Pool, domains: set<string>) {
    && p.queue + p.running + p.finished + p.collected == domains
    && p.queue !! p.running !! p.finished !! p.collected
  }

  ghost predicate PoolLog(p: Pool, call: Call, past: seq<Event>) {
    && past <= p.log && Running(p.log) == p.running
    && GoodLog(p.log, call)
    && forall d :: d in p.finished || d in p.collected ==> Finished(d) in p.log
  }

  ghost predicate PoolResults(p: Pool, call: Call, domains: set<string>) {
    && domains <= call.context.Keys
    && p.collected <= domains
    && match p.results
       case Ok(results) =>
         && (forall d :: d in p.collected ==> Answers(call.context, d))
         && results == Outcomes(call.context, p.collected)
       case Err(e) =>
         && (e.HandlerRaised? || e.WrongDomain?)
         && exists d :: d in domains && !Answers(call.context, d)
  }

  ghost predicate PoolInv(p: Pool, call: Call, past: seq<Event>, domains: set<string>) {
    && PoolSets(p, domains)
    && PoolLog(p, call, past)
    && PoolResults(p, call, domains)
    && forall d :: d in domains ==> MayStart(past, call.registry, call.context, d)
  }

  lemma {:induction false} StartKeeps(p: Pool, call: Call, past: seq<Event>, domains: set<string>, d: string)
    requires PoolInv(p, call, past, domains)
    requires d in p.queue && |p.running| < call.workers
    ensures PoolInv(Start(p, d), call, past, domains)
  {
    MovesKeepSets(p, domains, d);
    LogOne(past, p.log, Started(d), call);
  }

  lemma {:induction false} FinishKeeps(p: Pool, call: Call, past: seq<Event>, domains: set<string>, d: string)
    requires PoolInv(p, call, past, domains)
    requires d in p.running
    ensures PoolInv(Finish(p, d), call, past, domains)
  {
    MovesKeepSets(p, domains, d);
    LogOne(past, p.log, Finished(d), call);
  }

  lemma {:induction false} CollectKeeps(p: Pool, call: Call, past: seq<Event>, domains: set<string>, d: string)
    requires PoolInv(p, call, past, domains)
    requires d in p.finished && p.results.Ok?
    ensures PoolInv(Collect(p, d, call.context[d]), call, past, domains)
  {
    MovesKeepSets(p, domains, d);
    CollectKeepsResults(p, call, domains, d);
  }

  lemma {:induction false} MovesKeepSets(p: Pool, domains: set<string>, d: string)
    requires PoolSets(p, domains)
    ensures d in p.queue ==> PoolSets(Start(p, d), domains)
    ensures d in p.running ==> PoolSets(Finish(p, d), domains)
    ensures d in p.finished && p.results.Ok? ==> forall o :: PoolSets(Collect(p, d, o), domains)
  {
  }

  lemma {:induction false} CollectKeepsResults(p: Pool, call: Call, domains: set<string>, d: string)
    requires PoolResults(p, call, domains) && d in p.finished && d in domains && p.results.Ok?
    ensures PoolResults(Collect(p, d, call.context[d]), call, domains)
  {
    var q := Collect(p, d, call.context[d]);
    if q.results.Ok? {
      assert q.results.value == Outcomes(call.context, q.collected);
    } else {
      assert d in domains && !Answers(call.context, d);
    }
  }

  class SpecialistRouter {
    const registry: map<string, seq<string>>
    const maxWorkers: nat

    predicate Valid()
    {
      maxWorkers >= 1
    }

    constructor (registrations: map<string, seq<string>>, workers: nat)
      requires workers >= 1
      ensures Valid() && registry == registrations && maxWorkers == workers
    {
      registry, maxWorkers := registrations, workers;
    }

    /** The source's constructor, which refuses an empty pool and repeated domains. */
    static method Build(registrations: seq<Registration>, workers: int) returns (r: Result<SpecialistRouter>)
      ensures r.Ok? <==> workers >= 1 && UniqueDomains(registrations)
      ensures r.Ok? ==> fresh(r.value) && r.value.Valid() && r.value.maxWorkers == workers
      ensures r.Ok? ==> r.value.registry.Keys == set x | x in registrations :: x.domain
      ensures r.Ok? ==> forall x :: x in registrations ==> r.value.registry[x.domain] == x.dependsOn
      ensures r.Err? ==> r.error == if workers < 1 then NoWorkers else DuplicateRegistration
    {
      if workers < 1 {
        return Err(NoWorkers);
      }
      if !UniqueDomains(registrations) {
        return Err(DuplicateRegistration);
      }
      var registry: map<string, seq<string>> := map[];
      for i := 0 to |registrations|
        invariant registry.Keys == set x | x in registrations[..i] :: x.domain
        invariant forall x :: x in registrations[..i] ==> registry[x.domain] == x.dependsOn
      {
        registry := registry[registrations[i].domain := registrations[i].dependsOn];
      }
      assert registrations[..|registrations|] == registrations;
      var router := new SpecialistRouter(registry, workers);
      r := Ok(router);
    }

    /** One step of the pool: a queued handler starts if a worker is free, a running one
        finishes, or a finished one is collected. Which step, and which handler, is open. */
    method PoolStep(p: Pool, workers: nat, context: map<string, Outcome>, ghost call: Call,
                    ghost past: seq<Event>, ghost domains: set<string>)
      returns (q: Pool)
      requires call == Call(registry, context, maxWorkers) && 1 <= workers <= maxWorkers
      requires PoolInv(p, call, past, domains)
      requires p.queue != {} || p.running != {} || (p.finished != {} && p.results.Ok?)
      ensures PoolInv(q, call, past, domains)
      ensures Smaller(q, p)
    {
      if {
        case p.queue != {} && |p.running| < workers =>
          var d :| d in p.queue;
          StartKeeps(p, call, past, domains, d);
          q := Start(p, d);
        case p.running != {} =>
          var d :| d in p.running;
          FinishKeeps(p, call, past, domains, d);
          q := Finish(p, d);
        case p.finished != {} && p.results.Ok? =>
          var d :| d in p.finished;
          CollectKeeps(p, call, past, domains, d);
          q := Collect(p, d, context[d]);
      }
    }

    /** Runs one wave on the pool, in any order the pool likes. */
    method ExecuteWave(domains: seq<string>, context: map<string, Outcome>, past: seq<Event>, ghost call: Call)
      returns (r: Result<map<string, Outcome>>, log: seq<Event>)
      requires Valid() && domains != [] && call == Call(registry, context, maxWorkers)
      requires Running(past) == {} && GoodLog(past, call)
      requires forall d :: d in domains ==> d in context && MayStart(past, registry, context, d)
      ensures r.Ok? <==> forall d :: d in domains ==> Answers(context, d)
      ensures r.Ok? ==> r.value == Outcomes(context, Members(domains))
      ensures r.Err? ==> r.error.HandlerRaised? || r.error.WrongDomain?
      ensures past <= log && Running(log) == {} && GoodLog(log, call)
      ensures forall d :: d in domains ==> Finished(d) in log
    {
      var workers := if maxWorkers < |domains| then maxWorkers else |domains|;
      var wanted := Members(domains);
      var p := Pool(wanted, {}, {}, {}, past, Ok(map[]));
      while p.queue != {} || p.running != {} || (p.finished != {} && p.results.Ok?)
        invariant PoolInv(p, call, past, wanted)
        decreases p.queue, p.running, p.finished
      {
        p := PoolStep(p, workers, context, call, past, wanted);
      }
      return p.results, p.log;
    }

    /** Runs the required domains wave by wave. */
    method Route(required: seq<string>, context: map<string, Outcome>)
      returns (r: Result<Routed>, log: seq<Event>)
      requires Valid() && registry.Keys <= context.Keys
      ensures r.Ok? <==> Succeeds(registry, required, context)
      ensures r.Ok? ==> r.value == Expected(registry, required, context)
      ensures r.Err? && r.error.DependencyCycle? ==> Cyclic(registry, required)
      ensures Cyclic(registry, required) && (forall d :: d in required ==> Passes(context, d)) ==>
                r.Err? && r.error.DependencyCycle?
      ensures GoodLog(log, Call(registry, context, maxWorkers))
    {
      log := [];
      if !NoRepeats(required) {
        return Err(DuplicateRequired), log;
      }
      var wanted := Members(required);
      if !(wanted <= registry.Keys) {
        return Err(MissingDomains(wanted - registry.Keys)), log;
      }
      if d :| d in wanted && !(Members(registry[d]) <= wanted) {
        return Err(UnroutedDependencies(d, Members(registry[d]) - wanted)), log;
      }
      var ran;
      ran, log := RouteWaves(wanted, context);
      if ran.Err? {
        return Err(ran.error), log;
      }
      var (completed, waves) := ran.value;
      r := Ok(Routed(seq(|required|, i requires 0 <= i < |required| => completed[required[i]]), waves));
    }

    /** The wave loop of a well-posed request. */
    method RouteWaves(wanted: set<string>, context: map<string, Outcome>)
      returns (r: Result<(map<string, Outcome>, seq<seq<string>>)>, log: seq<Event>)
      requires Valid() && wanted <= registry.Keys <= context.Keys
      requires forall d :: d in wanted ==> Members(registry[d]) <= wanted
      ensures r.Ok? <==> Acyclic(RequiredGraph(registry, wanted)) && forall d :: d in wanted ==> Passes(context, d)
      ensures r.Ok? ==> r.value.0 == Outcomes(context, wanted)
      ensures r.Ok? ==> Schedule(RequiredGraph(registry, wanted), {}).Some?
      ensures r.Ok? ==> r.value.1 == Listed(Schedule(RequiredGraph(registry, wanted), {}).value)
      ensures r.Err? && !r.error.DependencyCycle? ==> exists d :: d in wanted && !Passes(context, d)
      ensures r.Err? && r.error.DependencyCycle? ==> !Acyclic(RequiredGraph(registry, wanted))
      ensures GoodLog(log, Call(registry, context, maxWorkers))
    {
      ghost var call := Call(registry, context, maxWorkers);
      ghost var g := RequiredGraph(registry, wanted);
      ghost var ran: seq<set<string>> := [];
      var pending := wanted;
      var completed: map<string, Outcome> := map[];
      var waves: seq<seq<string>> := [];
      log := [];
      NothingRun(call, g);
      while pending != {}
        invariant RouteInv(call, g, ran, completed, log)
        invariant pending == wanted - completed.Keys && waves == Listed(ran)
        decreases pending
      {
        var next;
        next, log := RouteOne(wanted, pending, completed, context, log, ran, call);
        if next.Err? {
          return Err(next.error), log;
        }
        var (ready, results) := next.value;
        ListedGrows(ran, ready);
        ran := ran + [ready];
        completed := completed + results;
        pending := pending - ready;
        waves := waves + [Sorted(ready)];
      }
      AllRun(call, wanted, ran, completed, log);
      r := Ok((completed, waves));
    }

    /** One turn of the wave loop: find what is ready, run it, and check its decisions. */
    method RouteOne(wanted: set<string>, pending: set<string>, completed: map<string, Outcome>,
                    context: map<string, Outcome>, past: seq<Event>,
                    ghost ran: seq<set<string>>, ghost call: Call)
      returns (r: Result<(set<string>, map<string, Outcome>)>, log: seq<Event>)
      requires Valid() && wanted <= registry.Keys <= context.Keys && call == Call(registry, context, maxWorkers)
      requires forall d :: d in wanted ==> Members(registry[d]) <= wanted
      requires RouteInv(call, RequiredGraph(registry, wanted), ran, completed, past)
      requires pending == wanted - completed.Keys && pending != {}
      ensures r.Ok? ==> r.value.0 != {} && r.value.0 <= pending && r.value.1.Keys == r.value.0
      ensures r.Ok? ==> RouteInv(call, RequiredGraph(registry, wanted), ran + [r.value.0], completed + r.value.1, log)
      ensures r.Err? && !r.error.DependencyCycle? ==> exists d :: d in wanted && !Passes(context, d)
      ensures r.Err? && r.error.DependencyCycle? ==> !Acyclic(RequiredGraph(registry, wanted))
      ensures GoodLog(log, call)
    {
      log := past;
      var ready := set d | d in pending && Members(registry[d]) <= completed.Keys;
      ReadyOnes(call, wanted, ran, completed, log, pending, ready);
      if ready == {} {
        return Err(DependencyCycle(Sorted(pending))), log;
      }
      var results;
      results, log := PassWave(ready, context, log, call);
      if results.Err? {
        return Err(results.error), log;
      }
      OneMoreWave(call, RequiredGraph(registry, wanted), ran, completed, past, log, ready, results.value);
      r := Ok((ready, results.value));
    }

    /** One wave, and the check that none of its decisions failed. */
    method PassWave(wave: set<string>, context: map<string, Outcome>, past: seq<Event>, ghost call: Call)
      returns (r: Result<map<string, Outcome>>, log: seq<Event>)
      requires Valid() && wave != {} && call == Call(registry, context, maxWorkers)
      requires Running(past) == {} && GoodLog(past, call)
      requires forall d :: d in wave ==> d in context && MayStart(past, registry, context, d)
      ensures r.Ok? <==> forall d :: d in wave ==> Passes(context, d)
      ensures r.Ok? ==> r.value == Outcomes(context, wave)
      ensures r.Err? ==> !r.error.DependencyCycle?
      ensures Running(log) == {} && GoodLog(log, call) && past <= log
      ensures forall d :: d in wave ==> Finished(d) in log
    {
      r, log := ExecuteWave(Sorted(wave), context, past, call);
      if r.Ok? {
        var bad := set d | d in r.value && r.value[d].status == "failed";
        var failed := Sorted(bad);
        if failed != [] {
          assert failed[0] in wave && !Passes(context, failed[0]);
          r := Err(DecisionsFailed(failed));
        } else {
          assert forall d :: d in wave ==> d !in failed && d !in bad;
        }
      }
    }
  }

  ghost predicate Smaller(q: Pool, p: Pool) {
    q.queue < p.queue || (q.queue == p.queue && (q.running < p.running || (q.running == p.running && q.finished < p.finished)))
  }

  // ----- what a route computes

  datatype Routed = Routed(results: seq<Outcome>, waves: seq<seq<string>>)

  ghost predicate Succeeds(registry: map<string, seq<string>>, required: seq<string>, context: map<string, Outcome>) {
    && WellPosed(registry, required)
    && Acyclic(RequiredGraph(registry, Members(required)))
    && forall d :: d in required ==> Passes(context, d)
  }

  ghost predicate Cyclic(registry: map<string, seq<string>>, required: seq<string>) {
    && WellPosed(registry, required)
    && !Acyclic(RequiredGraph(registry, Members(required)))
  }

  /** The results in the order of the request, and the schedule of the required graph. */
  ghost function Expected(registry: map<string, seq<string>>, required: seq<string>, context: map<string, Outcome>): Routed
    requires Succeeds(registry, required, context)
  {
    var g := RequiredGraph(registry, Members(required));
    assert Schedule(g, {}).Some? by { ScheduleIffAcyclic(g); }
    assert forall i :: 0 <= i < |required| ==> Passes(context, required[i]);
    Routed(seq(|required|, i requires 0 <= i < |required| => context[required[i]]),
           Listed(Schedule(g, {}).value))
  }

  /** What holds between waves: everything completed has passed, and its events are logged. */
  ghost predicate RouteInv(call: Call, g: Graph, ran: seq<set<string>>, completed: map<string, Outcome>, log: seq<Event>) {
    && InProgress(g, ran, completed.Keys)
    && GoodLog(log, call) && Running(log) == {}
    && forall d :: d in completed ==>
         d in call.context && completed[d] == call.context[d] && Passes(call.context, d) && Finished(d) in log
  }

  lemma {:induction false} NothingRun(call: Call, g: Graph)
    ensures RouteInv(call, g, [], map[], [])
  {
    var none: map<string, Outcome> := map[];
    assert none.Keys == {};
    NothingStarted(g);
  }

  lemma {:induction false} AllRun(call: Call, wanted: set<string>, ran: seq<set<string>>, completed: map<string, Outcome>,
               log: seq<Event>)
    requires wanted <= call.registry.Keys <= call.context.Keys
    requires forall d :: d in wanted ==> Members(call.registry[d]) <= wanted
    requires RouteInv(call, RequiredGraph(call.registry, wanted), ran, completed, log)
    requires wanted - completed.Keys == {}
    ensures Acyclic(RequiredGraph(call.registry, wanted))
    ensures Schedule(RequiredGraph(call.registry, wanted), {}) == Some(ran)
    ensures completed == Outcomes(call.context, wanted)
    ensures forall d :: d in wanted ==> Passes(call.context, d)
  {
    var g := RequiredGraph(call.registry, wanted);
    forall d | d in wanted ensures d in completed {
      assert d !in wanted - completed.Keys;
    }
    assert completed.Keys == g.Keys;
    WaveLoopEnds(g, ran, completed.Keys);
    ScheduleIffAcyclic(g);
  }

  lemma {:induction false} ReadyOnes(call: Call, wanted: set<string>, ran: seq<set<string>>, completed: map<string, Outcome>,
                  log: seq<Event>, pending: set<string>, ready: set<string>)
    requires wanted <= call.registry.Keys <= call.context.Keys
    requires forall d :: d in wanted ==> Members(call.registry[d]) <= wanted
    requires RouteInv(call, RequiredGraph(call.registry, wanted), ran, completed, log)
    requires pending == wanted - completed.Keys
    requires ready == set d | d in pending && Members(call.registry[d]) <= completed.Keys
    ensures ready == Ready(RequiredGraph(call.registry, wanted), completed.Keys)
    ensures forall d :: d in ready ==> d in call.context && MayStart(log, call.registry, call.context, d)
    ensures pending != {} && ready == {} ==> !Acyclic(RequiredGraph(call.registry, wanted))
  {
    var g := RequiredGraph(call.registry, wanted);
    WaveLoopEnds(g, ran, completed.Keys);
    ScheduleIffAcyclic(g);
    forall d | d in ready ensures MayStart(log, call.registry, call.context, d) {
      forall e | e in call.registry[d] ensures Passes(call.context, e) && Finished(e) in log {
        assert e in g[d];
      }
    }
  }

  lemma {:induction false} OneMoreWave(call: Call, g: Graph, ran: seq<set<string>>, completed: map<string, Outcome>,
                    past: seq<Event>, log: seq<Event>, ready: set<string>, results: map<string, Outcome>)
    requires RouteInv(call, g, ran, completed, past)
    requires past <= log && GoodLog(log, call) && Running(log) == {}
    requires ready != {} && ready == Ready(g, completed.Keys)
    requires forall d :: d in ready ==> d in call.context && Finished(d) in log && Passes(call.context, d)
    requires results == Outcomes(call.context, ready)
    ensures RouteInv(call, g, ran + [ready], completed + results, log)
  {
    RunWave(g, ran, completed.Keys);
    assert (completed + results).Keys == completed.Keys + ready;
    forall d | d in completed ensures Finished(d) in log {
      assert Finished(d) in past;
    }
  }
}
