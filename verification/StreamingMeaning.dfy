/**
 What the artifacts of a run are, said without the jobs that make them: the value of an output is the entry of
 that name in the evaluation of its producer's graph on the values of what the producer reads. The recursion
 goes from the weights of an epoch through the forward and backward passes to the next weights.
 */
module StreamingMeaning {
  import opened Common
  import opened Pipeline
  import opened Dataflow
  import opened StreamingOrch
  import opened WorkerCache
  import opened StreamingRuns
  import opened StreamingTheorems
  import opened StreamingNames

  // ------------------------------------------------------------------------
  // What a job evaluates
  // ------------------------------------------------------------------------

  /** Every kind of job has its own graph of the stage. */
  function GraphFor(id: JobId): GraphRef
  {
    match id
    case Fwd(_, s, _) => FwdGraph(s)
    case Bwd(_, s, _) => BwdGraph(s)
    case Outer(_, s) => OuterGraph(s)
  }

  /** Forward and backward jobs of a microbatch share its seed. */
  function ParamsFor(id: JobId): Params
  {
    match id
    case Fwd(e, s, mb) => MbParams(e, s, mb, 10000 * e + mb)
    case Bwd(e, s, mb) => MbParams(e, s, mb, 10000 * e + mb)
    case Outer(e, s) => StageParams(e, s)
  }

  /** What input name `n` of a job stands for: an artifact of the run, or a static blob. */
  predicate Source(cfg: Config, id: JobId, n: Name, u: Uri)
    requires id.stage < |cfg.stages|
  {
    var st := cfg.stages[id.stage];
    match id
    case Fwd(e, s, mb) =>
      || (s > 0 && n in st.fwdIn && u == FwdOut(e, s - 1, mb, n))
      || (cfg.training && st.weightsName.Some? && n == st.weightsName.value != "" && u == Weights(e, s))
      || (cfg.training && TargetSource(cfg, s, n, u))
      || StaticSource(cfg, s, n, u)
    case Bwd(e, s, mb) =>
      || (n == WeightsCalled(st) && u == Weights(e, s))
      || (s > 0 && n == "x_in" && u == FwdOut(e, s - 1, mb, "x"))
      || (s + 1 < |cfg.stages| && n == "dL_dx_out" && u == BwdOut(e, s + 1, mb, "dL_dx_in"))
      || TargetSource(cfg, s, n, u)
      || StaticSource(cfg, s, n, u)
    case Outer(e, s) =>
      || (n == WeightsCalled(st) && u == Weights(e, s))
      || exists mb :: 0 <= mb < cfg.microbatches && Gradient(e, s, mb, n, u)
  }

  /** Backward and outer jobs call the weights "W" where the stage has no name for them. */
  function WeightsCalled(st: Stage): Name
  {
    match st.weightsName
    case None => "W"
    case Some(n) => if n == "" then "W" else n
  }

  predicate Gradient(e: nat, s: nat, mb: nat, n: Name, u: Uri)
  {
    n == "dW_" + Decimal(mb) && u == BwdOut(e, s, mb, "dW")
  }

  /** The last stage reads the loss target, when there is one. */
  predicate TargetSource(cfg: Config, s: nat, n: Name, u: Uri)
  {
    s + 1 == |cfg.stages| && cfg.target.Some? && cfg.target.value != "" && n == "target" &&
    u == StaticBlob(cfg.target.value)
  }

  predicate StaticSource(cfg: Config, s: nat, n: Name, u: Uri)
  {
    exists j :: 0 <= j < |cfg.statics| && IsStatic(cfg, s, cfg.statics[j], n, u)
  }

  predicate IsStatic(cfg: Config, s: nat, si: StaticInput, n: Name, u: Uri)
  {
    n == si.name && u == StaticBlob(si.key) &&
    match si.scope
    case All => true
    case Head => s == 0
    case Tail => s + 1 == |cfg.stages|
    case HeadAndTail => s == 0 || s + 1 == |cfg.stages|
    case Nowhere => false
  }

  /** The name under which its producer declares an output, if it does. */
  function OutName(cfg: Config, u: Uri): Option<Name>
  {
    match u
    case Weights(_, _) => Some("W_new")
    case FwdOut(_, s, _, n) => if s < |cfg.stages| && n in cfg.stages[s].fwdOut then Some(n) else None
    case DoneMark(_, s, _) => if s + 1 == |cfg.stages| then Some(if cfg.training then "loss" else "done") else None
    case BwdOut(_, s, _, n) =>
      if n == "dW" || (n == "dL_dx_in" && 0 < s < |cfg.stages| && cfg.stages[s].emitsDx) then Some(n) else None
    case StaticBlob(_) => None
  }

  /** A job's task is its graph, its parameters, its sources and its declared outputs. */
  lemma JobsAre(cfg: Config, id: JobId, r: IORef)
    requires id.stage < |cfg.stages|
    ensures TaskOf(cfg, id).id == id
    ensures TaskOf(cfg, id).graph == GraphFor(id) && TaskOf(cfg, id).params == ParamsFor(id)
    ensures r in TaskOf(cfg, id).inputs <==> Source(cfg, id, r.name, r.uri)
    ensures r in TaskOf(cfg, id).outputs <==> Producer(r.uri) == Some(id) && OutName(cfg, r.uri) == Some(r.name)
  {
    StaticsAre(cfg, id.stage, r);
    match id
    case Fwd(e, s, mb) =>
      FwdRefs(cfg, e, s, mb, r);
      FwdOutputs(cfg, e, s, mb, r);
    case Bwd(e, s, mb) =>
      BwdRefs(cfg, e, s, mb, r);
      BwdOutputs(cfg, e, s, mb, r);
    case Outer(e, s) =>
      OuterSources(cfg, e, s, r);
  }

  lemma StaticsAre(cfg: Config, s: nat, r: IORef)
    ensures ReadsStatic(cfg, s, r) <==> StaticSource(cfg, s, r.name, r.uri)
  {
    if ReadsStatic(cfg, s, r) {
      var j :| 0 <= j < |cfg.statics| && InStatics(cfg, s, j, r);
      assert IsStatic(cfg, s, cfg.statics[j], r.name, r.uri);
    }
    if StaticSource(cfg, s, r.name, r.uri) {
      var j :| 0 <= j < |cfg.statics| && IsStatic(cfg, s, cfg.statics[j], r.name, r.uri);
      assert InStatics(cfg, s, j, r);
    }
  }

  lemma OuterSources(cfg: Config, e: nat, s: nat, r: IORef)
    requires s < |cfg.stages|
    ensures r in OuterTask(cfg, e, s).inputs <==> Source(cfg, Outer(e, s), r.name, r.uri)
  {
    OuterRefs(cfg, e, s, r);
    if mb :| 0 <= mb < cfg.microbatches && r == GradRef(e, s, mb) {
      assert Gradient(e, s, mb, r.name, r.uri);
    }
    if mb :| 0 <= mb < cfg.microbatches && Gradient(e, s, mb, r.name, r.uri) {
      assert r == GradRef(e, s, mb);
    }
  }

  lemma FwdOutputs(cfg: Config, e: nat, s: nat, mb: nat, r: IORef)
    requires s < |cfg.stages|
    ensures r in FwdTask(cfg, e, s, mb).outputs <==>
            Producer(r.uri) == Some(Fwd(e, s, mb)) && OutName(cfg, r.uri) == Some(r.name)
  {
    var t, st := FwdTask(cfg, e, s, mb), cfg.stages[s];
    if r.uri.FwdOut? && Producer(r.uri) == Some(Fwd(e, s, mb)) && r.name in st.fwdOut && r.uri.name == r.name {
      var i :| 0 <= i < |st.fwdOut| && st.fwdOut[i] == r.name;
      assert t.outputs[i] == r;
    }
    if r.uri == DoneMark(e, s, mb) && OutName(cfg, r.uri) == Some(r.name) {
      assert t.outputs[|t.outputs| - 1] == r;
    }
  }

  lemma BwdOutputs(cfg: Config, e: nat, s: nat, mb: nat, r: IORef)
    requires s < |cfg.stages|
    ensures r in BwdTask(cfg, e, s, mb).outputs <==>
            Producer(r.uri) == Some(Bwd(e, s, mb)) && OutName(cfg, r.uri) == Some(r.name)
  {
  }

  // ------------------------------------------------------------------------
  // Values
  // ------------------------------------------------------------------------

  /** The artifacts in the order in which they come to be: epoch, phase of the epoch, depth of the stage. */
  function Epoch(u: Uri): nat { if u.StaticBlob? then 0 else u.epoch }

  function Phase(u: Uri): nat
  {
    match u
    case FwdOut(_, _, _, _) => 1
    case DoneMark(_, _, _) => 1
    case BwdOut(_, _, _, _) => 2
    case _ => 0
  }

  function Depth(cfg: Config, u: Uri): nat
  {
    match u
    case FwdOut(_, s, _, _) => s
    case DoneMark(_, s, _) => s
    case BwdOut(_, s, _, _) => if s < |cfg.stages| then |cfg.stages| - s else 0
    case _ => 0
  }

  function JobPhase(id: JobId): nat { if id.Fwd? then 1 else if id.Bwd? then 2 else 3 }

  function JobDepth(cfg: Config, id: JobId): nat
  {
    match id
    case Fwd(_, s, _) => s
    case Bwd(_, s, _) => if s < |cfg.stages| then |cfg.stages| - s else 0
    case Outer(_, _) => 0
  }

  ghost predicate Named(cfg: Config, id: JobId, n: Name)
    requires id.stage < |cfg.stages|
  {
    exists u :: Source(cfg, id, n, u)
  }

  /** The dictionary holds the job's input names, each with the value of what it stands for. */
  ghost predicate Inputs(cfg: Config, init: Store, id: JobId, inputs: map<Name, Value>)
    requires id.stage < |cfg.stages|
    decreases id.epoch, JobPhase(id), JobDepth(cfg, id), 0
  {
    && (forall n :: n in inputs <==> Named(cfg, id, n))
    && (forall n, u :: Source(cfg, id, n, u) ==> ValueOf(cfg, init, u) == Some(inputs[n]))
  }

  /** The dictionary has every output that the job declares. */
  ghost predicate Declares(cfg: Config, id: JobId, out: map<Name, Value>)
  {
    forall u :: Producer(u) == Some(id) && OutName(cfg, u).Some? ==> OutName(cfg, u).value in out
  }

  /** What an emitted job evaluates to, when its inputs have values, evaluation returns and no output is missing. */
  ghost function ResultOf(cfg: Config, init: Store, id: JobId): (result: Option<map<Name, Value>>)
    ensures result.Some? ==> Declares(cfg, id, result.value)
    decreases id.epoch, JobPhase(id), JobDepth(cfg, id), 1
  {
    if !Emits(cfg, id) || !exists inputs :: Inputs(cfg, init, id, inputs) then None
    else
      var inputs :| Inputs(cfg, init, id, inputs);
      match cfg.eval(GraphFor(id), ParamsFor(id), inputs)
      case None => None
      case Some(out) => if Declares(cfg, id, out) then Some(out) else None
  }

  /** The value of an artifact: as given, or its producer's output of its name. */
  ghost function ValueOf(cfg: Config, init: Store, u: Uri): Option<Value>
    decreases Epoch(u), Phase(u), Depth(cfg, u), 2
  {
    match Producer(u)
    case None => if u in init then Some(init[u]) else None
    case Some(id) =>
      if OutName(cfg, u).None? then None
      else
        match ResultOf(cfg, init, id)
        case None => None
        case Some(out) => Some(out[OutName(cfg, u).value])
  }

  // ------------------------------------------------------------------------
  // The sequential run computes them
  // ------------------------------------------------------------------------

  /** `f` holds of the artifact what its meaning says. */
  ghost predicate Means(cfg: Config, init: Store, f: Store, u: Uri)
  {
    ValueOf(cfg, init, u) == if u in f then Some(f[u]) else None
  }

  /** Where all sources are as they should be, the job has its inputs exactly when they are there. */
  lemma InputsAre(cfg: Config, init: Store, f: Store, id: JobId)
    requires Emits(cfg, id) && NamesFunctional(TaskOf(cfg, id).inputs)
    requires forall n, u :: Source(cfg, id, n, u) ==> Means(cfg, init, f, u)
    ensures InputsPresent(TaskOf(cfg, id), f) ==> Inputs(cfg, init, id, Gather(TaskOf(cfg, id).inputs, f))
    ensures forall inputs :: Inputs(cfg, init, id, inputs) ==>
              InputsPresent(TaskOf(cfg, id), f) && inputs == Gather(TaskOf(cfg, id).inputs, f)
  {
    var t := TaskOf(cfg, id);
    if InputsPresent(t, f) {
      GatheredInputs(cfg, init, f, id);
    }
    forall inputs | Inputs(cfg, init, id, inputs)
      ensures InputsPresent(t, f) && inputs == Gather(t.inputs, f)
    {
      InputsGathered(cfg, init, f, id, inputs);
    }
  }

  lemma NamedIff(cfg: Config, id: JobId, n: Name)
    requires id.stage < |cfg.stages|
    ensures Named(cfg, id, n) <==> exists r :: r in TaskOf(cfg, id).inputs && r.name == n
  {
    if Named(cfg, id, n) {
      var u :| Source(cfg, id, n, u);
      JobsAre(cfg, id, IORef(n, u));
      assert IORef(n, u) in TaskOf(cfg, id).inputs;
    }
    if r :| r in TaskOf(cfg, id).inputs && r.name == n {
      JobsAre(cfg, id, r);
    }
  }

  lemma GatheredInputs(cfg: Config, init: Store, f: Store, id: JobId)
    requires Emits(cfg, id) && NamesFunctional(TaskOf(cfg, id).inputs) && InputsPresent(TaskOf(cfg, id), f)
    requires forall n, u :: Source(cfg, id, n, u) ==> Means(cfg, init, f, u)
    ensures Inputs(cfg, init, id, Gather(TaskOf(cfg, id).inputs, f))
  {
    var t := TaskOf(cfg, id);
    var inputs := Gather(t.inputs, f);
    GatherKeys(t.inputs, f);
    GatherValues(t.inputs, f);
    forall n ensures n in inputs <==> Named(cfg, id, n) {
      NamedIff(cfg, id, n);
    }
    forall n, u | Source(cfg, id, n, u) ensures ValueOf(cfg, init, u) == Some(inputs[n]) {
      JobsAre(cfg, id, IORef(n, u));
      assert Means(cfg, init, f, u) && IORef(n, u) in t.inputs;
    }
  }

  lemma InputsGathered(cfg: Config, init: Store, f: Store, id: JobId, inputs: map<Name, Value>)
    requires Emits(cfg, id) && NamesFunctional(TaskOf(cfg, id).inputs) && Inputs(cfg, init, id, inputs)
    requires forall n, u :: Source(cfg, id, n, u) ==> Means(cfg, init, f, u)
    ensures InputsPresent(TaskOf(cfg, id), f) && inputs == Gather(TaskOf(cfg, id).inputs, f)
  {
    var t := TaskOf(cfg, id);
    forall r | r in t.inputs ensures r.uri in f && r.name in inputs && inputs[r.name] == f[r.uri] {
      JobsAre(cfg, id, r);
      assert Means(cfg, init, f, r.uri) && Named(cfg, id, r.name);
    }
    var gathered := Gather(t.inputs, f);
    GatherKeys(t.inputs, f);
    GatherValues(t.inputs, f);
    forall n ensures n in inputs <==> n in gathered {
      NamedIff(cfg, id, n);
    }
    forall n | n in inputs ensures inputs[n] == gathered[n] {
      var r :| r in t.inputs && r.name == n;
    }
  }

  /** Evaluation of the task succeeds exactly when it returns all declared outputs. */
  lemma SucceedsIff(cfg: Config, id: JobId, inputs: map<Name, Value>)
    requires id.stage < |cfg.stages|
    ensures var out := cfg.eval(GraphFor(id), ParamsFor(id), inputs);
            Succeeds(cfg, TaskOf(cfg, id), inputs) <==> out.Some? && Declares(cfg, id, out.value)
  {
    var t, out := TaskOf(cfg, id), cfg.eval(GraphFor(id), ParamsFor(id), inputs);
    JobsAre(cfg, id, IORef("", StaticBlob("")));
    if Succeeds(cfg, t, inputs) {
      forall u | Producer(u) == Some(id) && OutName(cfg, u).Some? ensures OutName(cfg, u).value in out.value {
        JobsAre(cfg, id, IORef(OutName(cfg, u).value, u));
        assert IORef(OutName(cfg, u).value, u) in t.outputs;
      }
    }
    if out.Some? && Declares(cfg, id, out.value) {
      forall o | o in t.outputs ensures o.name in out.value {
        JobsAre(cfg, id, o);
      }
    }
  }

  /** What the task of a job evaluates to on a store, if it has its inputs there and succeeds. */
  ghost function OnStore(cfg: Config, f: Store, id: JobId): (result: Option<map<Name, Value>>)
    requires id.stage < |cfg.stages|
    ensures result.Some? ==> Declares(cfg, id, result.value)
  {
    var t := TaskOf(cfg, id);
    if InputsPresent(t, f) && Succeeds(cfg, t, Gather(t.inputs, f)) then
      SucceedsIff(cfg, id, Gather(t.inputs, f));
      cfg.eval(GraphFor(id), ParamsFor(id), Gather(t.inputs, f))
    else None
  }

  /** The result of a job whose sources are as they should be is what its task evaluates to on `f`. */
  lemma ResultIs(cfg: Config, init: Store, f: Store, id: JobId)
    requires Emits(cfg, id) && NamesFunctional(TaskOf(cfg, id).inputs)
    requires forall n, u :: Source(cfg, id, n, u) ==> Means(cfg, init, f, u)
    ensures ResultOf(cfg, init, id) == OnStore(cfg, f, id)
  {
    var t := TaskOf(cfg, id);
    InputsAre(cfg, init, f, id);
    if InputsPresent(t, f) {
      SucceedsIff(cfg, id, Gather(t.inputs, f));
    }
  }

  /** `f` is the sequential run of `n` epochs: what it has is given or written, and what jobs write it has. */
  ghost predicate IsRun(cfg: Config, init: Store, n: nat, f: Store)
  {
    && Within(init, f) && IsReference(cfg, n, f)
    && forall u :: u in f && u !in init ==> Grounded(cfg, n, f, u)
  }

  ghost predicate Grounded(cfg: Config, n: nat, f: Store, u: Uri)
  {
    match Producer(u)
    case None => false
    case Some(id) =>
      && Emits(cfg, id) && id.epoch < n && InputsPresent(TaskOf(cfg, id), f)
      && u in Outcome(cfg, TaskOf(cfg, id), Gather(TaskOf(cfg, id).inputs, f))
  }

  lemma RunIsRun(cfg: Config, init: Store, n: nat)
    requires Given(init)
    ensures IsRun(cfg, init, n, SequentialRun(cfg, init, n))
  {
    var f := SequentialRun(cfg, init, n);
    SequentialIsReference(cfg, init, n);
    InitWithin(cfg, init, n);
    forall u | u in f && u !in init ensures Grounded(cfg, n, f, u) {
      var t := ReferenceGrounded(cfg, n, init, u);
      AllMembers(cfg, n, t);
      TaskWiring(cfg, t.id, u);
    }
  }

  /** What the task evaluates to on the run is what the run has. */
  lemma HasOutput(cfg: Config, init: Store, n: nat, f: Store, id: JobId, u: Uri, result: Option<map<Name, Value>>)
    requires IsRun(cfg, init, n, f) && Producer(u) == Some(id) && Emits(cfg, id) && id.epoch < n
    requires result == OnStore(cfg, f, id) && result.Some? && OutName(cfg, u).Some?
    ensures u in f && OutName(cfg, u).value in result.value && f[u] == result.value[OutName(cfg, u).value]
  {
    var t := TaskOf(cfg, id);
    var o := IORef(OutName(cfg, u).value, u);
    JobsAre(cfg, id, o);
    OutcomeValue(cfg, id, Gather(t.inputs, f), o);
  }

  lemma HadInputs(cfg: Config, init: Store, n: nat, f: Store, id: JobId, u: Uri, result: Option<map<Name, Value>>)
    requires Given(init) && IsRun(cfg, init, n, f) && Producer(u) == Some(id) && Emits(cfg, id) && u in f
    requires result == OnStore(cfg, f, id)
    ensures result.Some? && OutName(cfg, u).Some?
  {
    assert Grounded(cfg, n, f, u);
    var o :| o in TaskOf(cfg, id).outputs && o.uri == u;
    JobsAre(cfg, id, o);
  }

  lemma MeansResult(cfg: Config, init: Store, f: Store, id: JobId, u: Uri, result: Option<map<Name, Value>>)
    requires Producer(u) == Some(id) && ResultOf(cfg, init, id) == result
    requires u in f <==> result.Some? && OutName(cfg, u).Some?
    requires u in f ==> OutName(cfg, u).value in result.value && f[u] == result.value[OutName(cfg, u).value]
    ensures Means(cfg, init, f, u)
  {
  }

  /** Output `u` of an emitted job, on a run in which the job's sources are as they should be. */
  lemma OutputMeans(cfg: Config, init: Store, n: nat, f: Store, id: JobId, u: Uri)
    requires Given(init) && IsRun(cfg, init, n, f) && Producer(u) == Some(id) && Emits(cfg, id) && id.epoch < n
    requires NamesFunctional(TaskOf(cfg, id).inputs)
    requires forall m, v :: Source(cfg, id, m, v) ==> Means(cfg, init, f, v)
    ensures Means(cfg, init, f, u)
  {
    ResultIs(cfg, init, f, id);
    var result := OnStore(cfg, f, id);
    if u in f {
      HadInputs(cfg, init, n, f, id, u, result);
    }
    if result.Some? && OutName(cfg, u).Some? {
      HasOutput(cfg, init, n, f, id, u, result);
    }
    MeansResult(cfg, init, f, id, u, result);
  }

  lemma NotEmittedMeans(cfg: Config, init: Store, n: nat, f: Store, id: JobId, u: Uri)
    requires Given(init) && IsRun(cfg, init, n, f) && Producer(u) == Some(id) && !Emits(cfg, id)
    ensures Means(cfg, init, f, u)
  {
    assert u in f ==> Grounded(cfg, n, f, u);
  }

  lemma GivenMeans(cfg: Config, init: Store, n: nat, f: Store, u: Uri)
    requires Given(init) && IsRun(cfg, init, n, f) && Producer(u).None?
    ensures Means(cfg, init, f, u)
  {
    assert u in f && u !in init ==> Grounded(cfg, n, f, u);
  }

  lemma {:induction false} EachMeans(cfg: Config, init: Store, n: nat, f: Store, u: Uri)
    requires Given(init) && NamesOk(cfg) && IsRun(cfg, init, n, f)
    requires Producer(u).Some? ==> Producer(u).value.epoch < n
    ensures Means(cfg, init, f, u)
    decreases Epoch(u), Phase(u), Depth(cfg, u)
  {
    match Producer(u)
    case None => GivenMeans(cfg, init, n, f, u);
    case Some(id) =>
      if Emits(cfg, id) {
        forall m, v | Source(cfg, id, m, v) ensures Means(cfg, init, f, v) {
          EachMeans(cfg, init, n, f, v);
        }
        OutputMeans(cfg, init, n, f, id, u);
      } else {
        NotEmittedMeans(cfg, init, n, f, id, u);
      }
  }

  /**
   The sequential run of `n` epochs has exactly the artifacts of these epochs that have a value, each with its
   value.
   */
  lemma SequentialMeans(cfg: Config, init: Store, n: nat, u: Uri)
    requires Given(init) && NamesOk(cfg) && (Producer(u).Some? ==> Producer(u).value.epoch < n)
    ensures var f := SequentialRun(cfg, init, n);
            ValueOf(cfg, init, u) == if u in f then Some(f[u]) else None
  {
    RunIsRun(cfg, init, n);
    EachMeans(cfg, init, n, SequentialRun(cfg, init, n), u);
  }

  // ------------------------------------------------------------------------
  // And so does every run
  // ------------------------------------------------------------------------

  /** A horizon beyond the emitted epochs and the producer of an artifact. */
  lemma HorizonFor(s: State, u: Uri) returns (n: nat)
    ensures (forall e :: e in s.orch.emitted ==> e < n) && (Producer(u).Some? ==> Producer(u).value.epoch < n)
  {
    n := Horizon(s.orch.emitted + if Producer(u).Some? then {Producer(u).value.epoch} else {});
  }

  /** In every state of every run, an artifact in the bucket has its value. */
  lemma StoredMeans(w: World, init: Store, states: seq<State>, labels: seq<Label>, i: nat, u: Uri)
    requires ValidRun(w, init, states, labels) && i < |states| && Given(init) && NamesOk(w.cfg)
    requires u in states[i].bucket
    ensures ValueOf(w.cfg, init, u) == Some(states[i].bucket[u])
  {
    var n := HorizonFor(states[i], u);
    Confluence(w, init, states, labels, i, n);
    SequentialMeans(w.cfg, init, n, u);
  }

  /** `v` is what the outer graph of the stage makes of the weights and of all gradients of epoch `e`. */
  ghost predicate IsOuterStep(cfg: Config, init: Store, e: nat, s: nat, inputs: map<Name, Value>, v: Value)
  {
    && s < |cfg.stages| && cfg.training && cfg.stages[s].hasOuter
    && Holds(cfg, init, inputs, WeightsCalled(cfg.stages[s]), Weights(e, s))
    && (forall mb: nat :: mb < cfg.microbatches ==>
          Holds(cfg, init, inputs, GradName(mb), BwdOut(e, s, mb, "dW")))
    && cfg.eval(OuterGraph(s), StageParams(e, s), inputs).Some?
    && "W_new" in cfg.eval(OuterGraph(s), StageParams(e, s), inputs).value
    && v == cfg.eval(OuterGraph(s), StageParams(e, s), inputs).value["W_new"]
  }

  ghost predicate Holds(cfg: Config, init: Store, inputs: map<Name, Value>, n: Name, u: Uri)
  {
    n in inputs && ValueOf(cfg, init, u) == Some(inputs[n])
  }

  lemma OuterStepOf(cfg: Config, init: Store, e: nat, s: nat) returns (inputs: map<Name, Value>)
    requires ValueOf(cfg, init, Weights(e + 1, s)).Some?
    ensures IsOuterStep(cfg, init, e, s, inputs, ValueOf(cfg, init, Weights(e + 1, s)).value)
  {
    var id := Outer(e, s);
    inputs :| Inputs(cfg, init, id, inputs) &&
      ResultOf(cfg, init, id) == cfg.eval(GraphFor(id), ParamsFor(id), inputs);
    assert Source(cfg, id, WeightsCalled(cfg.stages[s]), Weights(e, s));
    assert Named(cfg, id, WeightsCalled(cfg.stages[s]));
    forall mb: nat | mb < cfg.microbatches ensures Holds(cfg, init, inputs, GradName(mb), BwdOut(e, s, mb, "dW")) {
      assert Gradient(e, s, mb, GradName(mb), BwdOut(e, s, mb, "dW"));
      assert Source(cfg, id, GradName(mb), BwdOut(e, s, mb, "dW"));
      assert Named(cfg, id, GradName(mb));
    }
  }

  /** The weights given, or those after an outer step. */
  ghost predicate WeightsMean(cfg: Config, init: Store, e: nat, s: nat, v: Value)
  {
    if e == 0 then Weights(0, s) in init && v == init[Weights(0, s)] else AfterOuterStep(cfg, init, e - 1, s, v)
  }

  ghost predicate AfterOuterStep(cfg: Config, init: Store, e: nat, s: nat, v: Value)
  {
    exists inputs :: IsOuterStep(cfg, init, e, s, inputs, v)
  }

  lemma StoredWeights(w: World, init: Store, states: seq<State>, labels: seq<Label>, i: nat, e: nat, s: nat)
    requires ValidRun(w, init, states, labels) && i < |states| && Given(init) && NamesOk(w.cfg)
    requires Weights(e, s) in states[i].bucket
    ensures WeightsMean(w.cfg, init, e, s, states[i].bucket[Weights(e, s)])
  {
    StoredMeans(w, init, states, labels, i, Weights(e, s));
    if e > 0 {
      var inputs := OuterStepOf(w.cfg, init, e - 1, s);
    }
  }

  lemma SequentialWeights(w: World, init: Store, states: seq<State>, labels: seq<Label>, i: nat, e: nat, s: nat)
    requires ValidRun(w, init, states, labels) && i < |states| && Given(init) && NamesOk(w.cfg)
    requires Weights(e, s) in states[i].bucket
    ensures Weights(e, s) in SequentialRun(w.cfg, init, e)
    ensures states[i].bucket[Weights(e, s)] == SequentialRun(w.cfg, init, e)[Weights(e, s)]
  {
    var n := Horizon(states[i].orch.emitted + {e});
    Confluence(w, init, states, labels, i, n);
    SettledBy(w.cfg, init, e, n, Weights(e, s));
  }

  /**
   The weights of epoch `e`, whenever they exist in a run, are the result of `e` sequential epochs: those given,
   or what the outer graph makes of the weights and gradients of the epoch before.
   */
  lemma WeightsAreSequential(w: World, init: Store, states: seq<State>, labels: seq<Label>, i: nat, e: nat, s: nat)
    requires ValidRun(w, init, states, labels) && i < |states| && Given(init) && NamesOk(w.cfg)
    requires Weights(e, s) in states[i].bucket
    ensures var v := states[i].bucket[Weights(e, s)];
            && Weights(e, s) in SequentialRun(w.cfg, init, e) && v == SequentialRun(w.cfg, init, e)[Weights(e, s)]
            && ValueOf(w.cfg, init, Weights(e, s)) == Some(v) && WeightsMean(w.cfg, init, e, s, v)
  {
    SequentialWeights(w, init, states, labels, i, e, s);
    StoredMeans(w, init, states, labels, i, Weights(e, s));
    StoredWeights(w, init, states, labels, i, e, s);
  }

  // ------------------------------------------------------------------------
  // Without any condition on names
  // ------------------------------------------------------------------------

  /** Some dictionary of the job's input names gives the value under the output's name. */
  ghost predicate Evaluated(cfg: Config, u: Uri, v: Value)
  {
    match Producer(u)
    case None => false
    case Some(id) => Emits(cfg, id) && exists inputs :: GivesOutput(cfg, id, inputs, u, v)
  }

  ghost predicate GivesOutput(cfg: Config, id: JobId, inputs: map<Name, Value>, u: Uri, v: Value)
    requires id.stage < |cfg.stages|
  {
    var out := cfg.eval(GraphFor(id), ParamsFor(id), inputs);
    && (forall n :: n in inputs <==> Named(cfg, id, n))
    && out.Some? && OutName(cfg, u).Some? && OutName(cfg, u).value in out.value
    && v == out.value[OutName(cfg, u).value]
  }

  /** Every output on its way, and every artifact stored that was not given, was evaluated under its name. */
  ghost predicate AllEvaluated(cfg: Config, init: Store, s: State)
  {
    && (forall fl :: fl in s.flights ==> Evaluated(cfg, fl.uri, fl.value))
    && (forall u :: u in s.bucket ==> (u in init && s.bucket[u] == init[u]) || Evaluated(cfg, u, s.bucket[u]))
  }

  lemma PickupEvaluates(w: World, s: State, wk: WorkerId, id: JobId, u: Uri)
    requires Emits(w.cfg, id) && InputsPresent(TaskOf(w.cfg, id), s.bucket)
    requires u in Outcome(w.cfg, TaskOf(w.cfg, id), WorkerInputs(w, s, wk, TaskOf(w.cfg, id)))
    ensures Evaluated(w.cfg, u, Outcome(w.cfg, TaskOf(w.cfg, id), WorkerInputs(w, s, wk, TaskOf(w.cfg, id)))[u])
  {
    var t := TaskOf(w.cfg, id);
    var inputs := WorkerInputs(w, s, wk, t);
    var o :| o in t.outputs && o.uri == u;
    JobsAre(w.cfg, id, o);
    OutcomeValue(w.cfg, id, inputs, o);
    forall n ensures n in inputs <==> Named(w.cfg, id, n) {
      WorkerNames(w, s, wk, t, n);
      NamedIff(w.cfg, id, n);
    }
    assert GivesOutput(w.cfg, id, inputs, u, Outcome(w.cfg, t, inputs)[u]);
  }

  lemma WorkerNames(w: World, s: State, wk: WorkerId, t: Task, n: Name)
    requires InputsPresent(t, s.bucket)
    ensures n in WorkerInputs(w, s, wk, t) <==> exists r :: r in t.inputs && r.name == n
  {
    var c := CachesOf(w, s, wk);
    GatherKeys(FetchOrder(t.inputs, CachedKeys(c)), ReadAll(c, s.bucket));
  }

  lemma StepEvaluates(w: World, init: Store, s: State, l: Label, s': State)
    requires |w.cfg.stages| > 0 && Next(w, s, l, s') && ManifestsOk(w.cfg, s.orch) && AllEvaluated(w.cfg, init, s)
    ensures AllEvaluated(w.cfg, init, s')
  {
    if l.Pickup? {
      var t := s.orch.manifests[l.id].task;
      var puts := Outcome(w.cfg, t, WorkerInputs(w, s, l.worker, t));
      forall fl | fl in s'.flights ensures Evaluated(w.cfg, fl.uri, fl.value) {
        if fl !in s.flights {
          assert fl.uri in puts && fl.value == puts[fl.uri];
          PickupEvaluates(w, s, l.worker, l.id, fl.uri);
        }
      }
    } else if l.Land? {
      assert Evaluated(w.cfg, l.flight.uri, l.flight.value);
    }
  }

  /** So in every state of every run, whatever the names of the configuration. */
  lemma {:induction false} RunEvaluates(w: World, init: Store, states: seq<State>, labels: seq<Label>, i: nat)
    requires ValidRun(w, init, states, labels) && i < |states|
    ensures AllEvaluated(w.cfg, init, states[i])
  {
    if i > 0 {
      RunEvaluates(w, init, states, labels, i - 1);
      RunOrch(w, init, states, labels, i - 1, i - 1);
      assert StepAt(w, states, labels, i - 1);
      StepEvaluates(w, init, states[i - 1], labels[i - 1], states[i]);
    }
  }
}
