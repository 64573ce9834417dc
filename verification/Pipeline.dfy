/**
 The jobs of one streaming epoch.

 Stages are numbered by their position in the stage list. A `Task` is the part
 of a job manifest that a retry leaves alone: its id, graph, parameters, inputs
 and outputs. The URIs of the bucket are a datatype, so that different path
 formats are different values.
 */
module Pipeline {
  import opened Common

  /** A tensor, as far as the protocol can see it. */
  type Value(==, !new)

  /** Worker ids are only compared and ordered. */
  type WorkerId = nat

  /** The name under which a graph finds an input or declares an output. */
  type Name = string

  datatype Uri =
    | Weights(epoch: nat, stage: nat)
    | FwdOut(epoch: nat, stage: nat, mb: nat, name: string)
    | DoneMark(epoch: nat, stage: nat, mb: nat)
    | BwdOut(epoch: nat, stage: nat, mb: nat, name: string)
    | StaticBlob(key: string)

  datatype IORef = IORef(name: Name, uri: Uri)

  datatype JobId =
    | Fwd(epoch: nat, stage: nat, mb: nat)
    | Bwd(epoch: nat, stage: nat, mb: nat)
    | Outer(epoch: nat, stage: nat)

  datatype GraphRef = FwdGraph(stage: nat) | BwdGraph(stage: nat) | OuterGraph(stage: nat)

  datatype Params = MbParams(epoch: nat, stage: nat, mb: nat, mbSeed: nat) | StageParams(epoch: nat, stage: nat)

  datatype Task = Task(id: JobId, graph: GraphRef, params: Params, inputs: seq<IORef>, outputs: seq<IORef>)

  datatype Scope = Head | Tail | HeadAndTail | All | Nowhere

  datatype StaticInput = StaticInput(name: Name, key: string, scope: Scope)

  predicate DifferentNames(statics: seq<StaticInput>)
  {
    forall i, j :: 0 <= i < j < |statics| ==> statics[i].name != statics[j].name
  }

  /** The static inputs are a dictionary in order of insertion: no two bear the same name. */
  type Statics = s: seq<StaticInput> | DifferentNames(s) witness []

  datatype Stage = Stage(
    fwdIn: seq<string>,
    fwdOut: seq<string>,
    weightsName: Option<string>,
    hasBackward: bool,
    hasOuter: bool,
    emitsDx: bool)

  /**
   `eval` stands for graph evaluation: a deterministic function of the graph, the
   parameters and the named inputs. It is `None` when evaluation raises.
   */
  datatype Config = Config(
    stages: seq<Stage>,
    microbatches: nat,
    maxEpochs: nat,
    training: bool,
    target: Option<string>,
    statics: Statics,
    eval: (GraphRef, Params, map<Name, Value>) -> Option<map<Name, Value>>)

  predicate IsTail(cfg: Config, s: nat) { s + 1 == |cfg.stages| }

  // ------------------------------------------------------------------------
  // One job of each kind
  // ------------------------------------------------------------------------

  predicate InScope(cfg: Config, scope: Scope, s: nat)
  {
    match scope
    case All => true
    case Head => s == 0
    case Tail => IsTail(cfg, s)
    case HeadAndTail => s == 0 || IsTail(cfg, s)
    case Nowhere => false
  }

  function StaticRefs(cfg: Config, s: nat, n: nat): seq<IORef>
    requires n <= |cfg.statics|
  {
    if n == 0 then []
    else
      var si := cfg.statics[n - 1];
      StaticRefs(cfg, s, n - 1) +
      (if InScope(cfg, si.scope, s) then [IORef(si.name, StaticBlob(si.key))] else [])
  }

  /** The run has a loss target; an empty key says none. */
  predicate NamesTarget(cfg: Config) { cfg.target.Some? && cfg.target.value != "" }

  function TargetRefs(cfg: Config, s: nat): seq<IORef>
  {
    if IsTail(cfg, s) && NamesTarget(cfg) then [IORef("target", StaticBlob(cfg.target.value))] else []
  }

  /** The stage says how its weights are called; an empty name says nothing. */
  predicate NamesWeights(st: Stage) { st.weightsName.Some? && st.weightsName.value != "" }

  function WeightsName(st: Stage): Name { if NamesWeights(st) then st.weightsName.value else "W" }

  /** A number as it is written. */
  function Decimal(n: nat): (text: string)
    ensures text != ""
  {
    if n < 10 then [DIGITS[n]] else Decimal(n / 10) + [DIGITS[n % 10]]
  }

  const DIGITS: string := "0123456789"

  /** How an outer job calls the gradient of a microbatch. */
  function GradName(mb: nat): Name { "dW_" + Decimal(mb) }

  function FwdTask(cfg: Config, e: nat, s: nat, mb: nat): Task
    requires s < |cfg.stages|
  {
    var st := cfg.stages[s];
    var chained :=
      if s == 0 then []
      else
        seq(|st.fwdIn|, i requires 0 <= i < |st.fwdIn| =>
          IORef(st.fwdIn[i], FwdOut(e, s - 1, mb, st.fwdIn[i])));
    var weights := if NamesWeights(st) && cfg.training then [IORef(WeightsName(st), Weights(e, s))] else [];
    var target := if cfg.training then TargetRefs(cfg, s) else [];
    var produced :=
      seq(|st.fwdOut|, i requires 0 <= i < |st.fwdOut| => IORef(st.fwdOut[i], FwdOut(e, s, mb, st.fwdOut[i])));
    var marker :=
      if IsTail(cfg, s) then [IORef(if cfg.training then "loss" else "done", DoneMark(e, s, mb))] else [];
    Task(Fwd(e, s, mb), FwdGraph(s), MbParams(e, s, mb, e * 10000 + mb),
         chained + weights + target + StaticRefs(cfg, s, |cfg.statics|), produced + marker)
  }

  function BwdTask(cfg: Config, e: nat, s: nat, mb: nat): Task
    requires s < |cfg.stages|
  {
    var st := cfg.stages[s];
    var xIn := if s != 0 then [IORef("x_in", FwdOut(e, s - 1, mb, "x"))] else [];
    var dOut := if !IsTail(cfg, s) then [IORef("dL_dx_out", BwdOut(e, s + 1, mb, "dL_dx_in"))] else [];
    var dIn := if s != 0 && st.emitsDx then [IORef("dL_dx_in", BwdOut(e, s, mb, "dL_dx_in"))] else [];
    Task(Bwd(e, s, mb), BwdGraph(s), MbParams(e, s, mb, e * 10000 + mb),
         [IORef(WeightsName(st), Weights(e, s))] + xIn + TargetRefs(cfg, s) + StaticRefs(cfg, s, |cfg.statics|) + dOut,
         [IORef("dW", BwdOut(e, s, mb, "dW"))] + dIn)
  }

  function OuterTask(cfg: Config, e: nat, s: nat): Task
    requires s < |cfg.stages|
  {
    Task(Outer(e, s), OuterGraph(s), StageParams(e, s),
         [IORef(WeightsName(cfg.stages[s]), Weights(e, s))] +
         seq(cfg.microbatches, mb requires 0 <= mb < cfg.microbatches =>
           IORef(GradName(mb), BwdOut(e, s, mb, "dW"))),
         [IORef("W_new", Weights(e + 1, s))])
  }

  // ------------------------------------------------------------------------
  // The emission order of one epoch, written as the nested loops append
  // ------------------------------------------------------------------------

  function FwdRow(cfg: Config, e: nat, mb: nat, n: nat): seq<Task>
    requires n <= |cfg.stages|
  {
    if n == 0 then [] else FwdRow(cfg, e, mb, n - 1) + [FwdTask(cfg, e, n - 1, mb)]
  }

  function FwdRows(cfg: Config, e: nat, m: nat): seq<Task>
  {
    if m == 0 then [] else FwdRows(cfg, e, m - 1) + FwdRow(cfg, e, m - 1, |cfg.stages|)
  }

  /** Backward jobs of stages |stages|-1 down to `lo`; stages without a backward graph are skipped. */
  function BwdRow(cfg: Config, e: nat, mb: nat, lo: nat): seq<Task>
    requires lo <= |cfg.stages|
    decreases |cfg.stages| - lo
  {
    if lo == |cfg.stages| then []
    else BwdRow(cfg, e, mb, lo + 1) + (if cfg.stages[lo].hasBackward then [BwdTask(cfg, e, lo, mb)] else [])
  }

  function BwdRows(cfg: Config, e: nat, m: nat): seq<Task>
  {
    if m == 0 then [] else BwdRows(cfg, e, m - 1) + BwdRow(cfg, e, m - 1, 0)
  }

  function OuterRow(cfg: Config, e: nat, n: nat): seq<Task>
    requires n <= |cfg.stages|
  {
    if n == 0 then []
    else OuterRow(cfg, e, n - 1) + (if cfg.stages[n - 1].hasOuter then [OuterTask(cfg, e, n - 1)] else [])
  }

  function EpochTasks(cfg: Config, e: nat): seq<Task>
  {
    FwdRows(cfg, e, cfg.microbatches) +
    (if cfg.training then BwdRows(cfg, e, cfg.microbatches) + OuterRow(cfg, e, |cfg.stages|) else [])
  }

  /** Every job of the epochs 0..n-1, in emission order. */
  function AllTasks(cfg: Config, n: nat): seq<Task>
  {
    if n == 0 then [] else AllTasks(cfg, n - 1) + EpochTasks(cfg, n - 1)
  }

  // ------------------------------------------------------------------------
  // Which jobs are emitted
  // ------------------------------------------------------------------------

  ghost predicate Emits(cfg: Config, id: JobId)
  {
    && id.stage < |cfg.stages|
    && match id
       case Fwd(_, _, mb) => mb < cfg.microbatches
       case Bwd(_, s, mb) => cfg.training && mb < cfg.microbatches && cfg.stages[s].hasBackward
       case Outer(_, s) => cfg.training && cfg.stages[s].hasOuter
  }

  function TaskOf(cfg: Config, id: JobId): Task
    requires id.stage < |cfg.stages|
  {
    match id
    case Fwd(e, s, mb) => FwdTask(cfg, e, s, mb)
    case Bwd(e, s, mb) => BwdTask(cfg, e, s, mb)
    case Outer(e, s) => OuterTask(cfg, e, s)
  }

  lemma {:induction false} FwdRowMembers(cfg: Config, e: nat, mb: nat, n: nat, t: Task)
    requires n <= |cfg.stages|
    ensures t in FwdRow(cfg, e, mb, n) <==> exists s: nat :: s < n && t == FwdTask(cfg, e, s, mb)
  {
    if n > 0 {
      FwdRowMembers(cfg, e, mb, n - 1, t);
      if t == FwdTask(cfg, e, n - 1, mb) {
        assert FwdRow(cfg, e, mb, n)[|FwdRow(cfg, e, mb, n)| - 1] == t;
      }
    }
  }

  lemma {:induction false} FwdRowsMembers(cfg: Config, e: nat, m: nat, t: Task)
    ensures t in FwdRows(cfg, e, m) <==>
            exists s: nat, mb: nat :: s < |cfg.stages| && mb < m && t == FwdTask(cfg, e, s, mb)
  {
    if m > 0 {
      FwdRowsMembers(cfg, e, m - 1, t);
      FwdRowMembers(cfg, e, m - 1, |cfg.stages|, t);
    }
  }

  lemma {:induction false} BwdRowMembers(cfg: Config, e: nat, mb: nat, lo: nat, t: Task)
    requires lo <= |cfg.stages|
    ensures t in BwdRow(cfg, e, mb, lo) <==>
            exists s: nat :: lo <= s < |cfg.stages| && cfg.stages[s].hasBackward && t == BwdTask(cfg, e, s, mb)
    decreases |cfg.stages| - lo
  {
    if lo < |cfg.stages| {
      BwdRowMembers(cfg, e, mb, lo + 1, t);
    }
  }

  lemma {:induction false} BwdRowsMembers(cfg: Config, e: nat, m: nat, t: Task)
    ensures t in BwdRows(cfg, e, m) <==>
            exists s: nat, mb: nat :: s < |cfg.stages| && mb < m && cfg.stages[s].hasBackward &&
              t == BwdTask(cfg, e, s, mb)
  {
    if m > 0 {
      BwdRowsMembers(cfg, e, m - 1, t);
      BwdRowMembers(cfg, e, m - 1, 0, t);
    }
  }

  lemma {:induction false} OuterRowMembers(cfg: Config, e: nat, n: nat, t: Task)
    requires n <= |cfg.stages|
    ensures t in OuterRow(cfg, e, n) <==>
            exists s: nat :: s < n && cfg.stages[s].hasOuter && t == OuterTask(cfg, e, s)
  {
    if n > 0 {
      OuterRowMembers(cfg, e, n - 1, t);
    }
  }

  /** An epoch's list holds exactly the tasks of the emitted job ids of that epoch. */
  lemma EpochMembers(cfg: Config, e: nat, t: Task)
    ensures t in EpochTasks(cfg, e) <==> Emits(cfg, t.id) && t.id.epoch == e && t == TaskOf(cfg, t.id)
  {
    FwdRowsMembers(cfg, e, cfg.microbatches, t);
    BwdRowsMembers(cfg, e, cfg.microbatches, t);
    OuterRowMembers(cfg, e, |cfg.stages|, t);
  }

  lemma {:induction false} AllMembers(cfg: Config, n: nat, t: Task)
    ensures t in AllTasks(cfg, n) <==> Emits(cfg, t.id) && t.id.epoch < n && t == TaskOf(cfg, t.id)
  {
    if n > 0 {
      AllMembers(cfg, n - 1, t);
      EpochMembers(cfg, n - 1, t);
    }
  }

  // ------------------------------------------------------------------------
  // The emission order is topological
  // ------------------------------------------------------------------------

  /** A job's place in the emission order: epoch, phase, then the loop variables. */
  datatype Key = Key(epoch: int, phase: int, outerLoop: int, innerLoop: int)

  function KeyOf(id: JobId): Key
  {
    match id
    case Fwd(e, s, mb) => Key(e, 0, mb, s)
    case Bwd(e, s, mb) => Key(e, 1, mb, 0 - s as int)
    case Outer(e, s) => Key(e, 2, 0, s)
  }

  predicate KeyLess(a: Key, b: Key)
  {
    || a.epoch < b.epoch
    || (a.epoch == b.epoch && a.phase < b.phase)
    || (a.epoch == b.epoch && a.phase == b.phase && a.outerLoop < b.outerLoop)
    || (a.epoch == b.epoch && a.phase == b.phase && a.outerLoop == b.outerLoop && a.innerLoop < b.innerLoop)
  }

  ghost predicate Ascending(ts: seq<Task>)
  {
    forall i, k :: 0 <= i < k < |ts| ==> KeyLess(KeyOf(ts[i].id), KeyOf(ts[k].id))
  }

  lemma AscendingConcat(a: seq<Task>, b: seq<Task>)
    requires Ascending(a) && Ascending(b)
    requires forall x, y :: x in a && y in b ==> KeyLess(KeyOf(x.id), KeyOf(y.id))
    ensures Ascending(a + b)
  {
    var c := a + b;
    forall i, k | 0 <= i < k < |c| ensures KeyLess(KeyOf(c[i].id), KeyOf(c[k].id)) {
      if i < |a| <= k {
        assert c[i] in a && c[k] in b;
      }
    }
  }

  lemma {:induction false} FwdRowAscends(cfg: Config, e: nat, mb: nat, n: nat)
    requires n <= |cfg.stages|
    ensures Ascending(FwdRow(cfg, e, mb, n))
  {
    if n > 0 {
      FwdRowAscends(cfg, e, mb, n - 1);
      forall t | t in FwdRow(cfg, e, mb, n - 1) ensures KeyLess(KeyOf(t.id), Key(e, 0, mb, n - 1)) {
        FwdRowMembers(cfg, e, mb, n - 1, t);
      }
      AscendingConcat(FwdRow(cfg, e, mb, n - 1), [FwdTask(cfg, e, n - 1, mb)]);
    }
  }

  lemma RowsBeforeRow(cfg: Config, e: nat, m: nat, x: Task, y: Task)
    requires x in FwdRows(cfg, e, m) && y in FwdRow(cfg, e, m, |cfg.stages|)
    ensures KeyLess(KeyOf(x.id), KeyOf(y.id))
  {
    FwdRowsMembers(cfg, e, m, x);
    FwdRowMembers(cfg, e, m, |cfg.stages|, y);
  }

  lemma {:induction false} FwdRowsAscend(cfg: Config, e: nat, m: nat)
    ensures Ascending(FwdRows(cfg, e, m))
  {
    if m > 0 {
      FwdRowsAscend(cfg, e, m - 1);
      FwdRowAscends(cfg, e, m - 1, |cfg.stages|);
      forall x, y | x in FwdRows(cfg, e, m - 1) && y in FwdRow(cfg, e, m - 1, |cfg.stages|)
        ensures KeyLess(KeyOf(x.id), KeyOf(y.id))
      {
        RowsBeforeRow(cfg, e, m - 1, x, y);
      }
      AscendingConcat(FwdRows(cfg, e, m - 1), FwdRow(cfg, e, m - 1, |cfg.stages|));
    }
  }

  lemma {:induction false} BwdRowAscends(cfg: Config, e: nat, mb: nat, lo: nat)
    requires lo <= |cfg.stages|
    ensures Ascending(BwdRow(cfg, e, mb, lo))
    decreases |cfg.stages| - lo
  {
    if lo < |cfg.stages| {
      BwdRowAscends(cfg, e, mb, lo + 1);
      forall t | t in BwdRow(cfg, e, mb, lo + 1) ensures KeyLess(KeyOf(t.id), Key(e, 1, mb, 0 - lo as int)) {
        BwdRowMembers(cfg, e, mb, lo + 1, t);
      }
      AscendingConcat(BwdRow(cfg, e, mb, lo + 1), if cfg.stages[lo].hasBackward then [BwdTask(cfg, e, lo, mb)] else []);
    }
  }

  lemma {:induction false} BwdRowsAscend(cfg: Config, e: nat, m: nat)
    ensures Ascending(BwdRows(cfg, e, m))
  {
    if m > 0 {
      BwdRowsAscend(cfg, e, m - 1);
      BwdRowAscends(cfg, e, m - 1, 0);
      forall x, y | x in BwdRows(cfg, e, m - 1) && y in BwdRow(cfg, e, m - 1, 0)
        ensures KeyLess(KeyOf(x.id), KeyOf(y.id))
      {
        BwdRowsMembers(cfg, e, m - 1, x);
        BwdRowMembers(cfg, e, m - 1, 0, y);
      }
      AscendingConcat(BwdRows(cfg, e, m - 1), BwdRow(cfg, e, m - 1, 0));
    }
  }

  lemma {:induction false} OuterRowAscends(cfg: Config, e: nat, n: nat)
    requires n <= |cfg.stages|
    ensures Ascending(OuterRow(cfg, e, n))
  {
    if n > 0 {
      OuterRowAscends(cfg, e, n - 1);
      forall t | t in OuterRow(cfg, e, n - 1) ensures KeyLess(KeyOf(t.id), Key(e, 2, 0, n - 1)) {
        OuterRowMembers(cfg, e, n - 1, t);
      }
      AscendingConcat(OuterRow(cfg, e, n - 1), if cfg.stages[n - 1].hasOuter then [OuterTask(cfg, e, n - 1)] else []);
    }
  }

  lemma EpochAscends(cfg: Config, e: nat)
    ensures Ascending(EpochTasks(cfg, e))
  {
    var f, b, o := FwdRows(cfg, e, cfg.microbatches), BwdRows(cfg, e, cfg.microbatches), OuterRow(cfg, e, |cfg.stages|);
    FwdRowsAscend(cfg, e, cfg.microbatches);
    BwdRowsAscend(cfg, e, cfg.microbatches);
    OuterRowAscends(cfg, e, |cfg.stages|);
    forall t ensures t in f ==> t.id.Fwd? && t.id.epoch == e { FwdRowsMembers(cfg, e, cfg.microbatches, t); }
    forall t ensures t in b ==> t.id.Bwd? && t.id.epoch == e { BwdRowsMembers(cfg, e, cfg.microbatches, t); }
    forall t ensures t in o ==> t.id.Outer? && t.id.epoch == e { OuterRowMembers(cfg, e, |cfg.stages|, t); }
    AscendingConcat(b, o);
    AscendingConcat(f, b + o);
    assert f + [] == f;
  }

  lemma {:induction false} AllAscend(cfg: Config, n: nat)
    ensures Ascending(AllTasks(cfg, n))
  {
    if n > 0 {
      AllAscend(cfg, n - 1);
      EpochAscends(cfg, n - 1);
      forall x, y | x in AllTasks(cfg, n - 1) && y in EpochTasks(cfg, n - 1)
        ensures KeyLess(KeyOf(x.id), KeyOf(y.id))
      {
        AllMembers(cfg, n - 1, x);
        EpochMembers(cfg, n - 1, y);
      }
      AscendingConcat(AllTasks(cfg, n - 1), EpochTasks(cfg, n - 1));
    }
  }

  /** The one job that can write a URI; `None` for artifacts the run is given. */
  function Producer(u: Uri): Option<JobId>
  {
    match u
    case Weights(e, s) => if e == 0 then None else Some(Outer(e - 1, s))
    case FwdOut(e, s, mb, _) => Some(Fwd(e, s, mb))
    case DoneMark(e, s, mb) => Some(Fwd(e, s, mb))
    case BwdOut(e, s, mb, _) => Some(Bwd(e, s, mb))
    case StaticBlob(_) => None
  }

  ghost predicate Writes(t: Task, u: Uri) { exists o :: o in t.outputs && o.uri == u }

  ghost predicate Reads(t: Task, u: Uri) { exists i :: i in t.inputs && i.uri == u }

  lemma {:induction false} StaticRefsAreStatic(cfg: Config, s: nat, n: nat)
    requires n <= |cfg.statics|
    ensures forall r :: r in StaticRefs(cfg, s, n) ==>
            r.uri.StaticBlob? && exists j :: 0 <= j < n && r.uri.key == cfg.statics[j].key
  {
    if n > 0 {
      StaticRefsAreStatic(cfg, s, n - 1);
    }
  }

  /** What a job may read: a given artifact, or one produced strictly before the job. */
  predicate Earlier(u: Uri, id: JobId)
  {
    Producer(u).None? || KeyLess(KeyOf(Producer(u).value), KeyOf(id))
  }

  lemma FwdReads(cfg: Config, e: nat, s: nat, mb: nat, r: IORef)
    requires s < |cfg.stages| && r in FwdTask(cfg, e, s, mb).inputs
    ensures Earlier(r.uri, Fwd(e, s, mb))
  {
    StaticRefsAreStatic(cfg, s, |cfg.statics|);
    assert r in StaticRefs(cfg, s, |cfg.statics|) || r in TargetRefs(cfg, s) || r.uri == Weights(e, s) || r.uri.FwdOut?;
  }

  lemma BwdReads(cfg: Config, e: nat, s: nat, mb: nat, r: IORef)
    requires s < |cfg.stages| && r in BwdTask(cfg, e, s, mb).inputs
    ensures Earlier(r.uri, Bwd(e, s, mb))
  {
    StaticRefsAreStatic(cfg, s, |cfg.statics|);
    assert r in StaticRefs(cfg, s, |cfg.statics|) || r in TargetRefs(cfg, s) || r.uri == Weights(e, s) ||
      r.uri.FwdOut? || r.uri.BwdOut?;
  }

  /** A job writes only URIs it produces, and reads only URIs produced strictly before it. */
  lemma TaskWiring(cfg: Config, id: JobId, u: Uri)
    requires id.stage < |cfg.stages|
    ensures Writes(TaskOf(cfg, id), u) ==> Producer(u) == Some(id)
    ensures Reads(TaskOf(cfg, id), u) ==> Earlier(u, id)
  {
    if Reads(TaskOf(cfg, id), u) {
      var r :| r in TaskOf(cfg, id).inputs && r.uri == u;
      ReadsEarlier(cfg, id, r);
    }
    if Writes(TaskOf(cfg, id), u) {
      var o :| o in TaskOf(cfg, id).outputs && o.uri == u;
      WritesOwn(cfg, id, o);
    }
  }

  lemma ReadsEarlier(cfg: Config, id: JobId, r: IORef)
    requires id.stage < |cfg.stages| && r in TaskOf(cfg, id).inputs
    ensures Earlier(r.uri, id)
  {
    match id
    case Fwd(e, s, mb) => FwdReads(cfg, e, s, mb, r);
    case Bwd(e, s, mb) => BwdReads(cfg, e, s, mb, r);
    case Outer(e, s) =>
  }

  lemma WritesOwn(cfg: Config, id: JobId, o: IORef)
    requires id.stage < |cfg.stages| && o in TaskOf(cfg, id).outputs
    ensures Producer(o.uri) == Some(id)
  {
  }

  /** Outputs of one job that share a URI share their name. */
  lemma OutputsFunctional(cfg: Config, id: JobId, o: IORef, p: IORef)
    requires id.stage < |cfg.stages|
    requires o in TaskOf(cfg, id).outputs && p in TaskOf(cfg, id).outputs && o.uri == p.uri
    ensures o == p
  {
  }

  /** All jobs of the run write pairwise disjoint URIs, and no job reads what a later job writes. */
  lemma EmissionIsTopological(cfg: Config, n: nat, i: nat, k: nat, u: Uri)
    requires i < |AllTasks(cfg, n)| && k < |AllTasks(cfg, n)|
    ensures Writes(AllTasks(cfg, n)[i], u) && Writes(AllTasks(cfg, n)[k], u) ==> i == k
    ensures Reads(AllTasks(cfg, n)[i], u) && Writes(AllTasks(cfg, n)[k], u) ==> k < i
  {
    var ts := AllTasks(cfg, n);
    AllMembers(cfg, n, ts[i]);
    AllMembers(cfg, n, ts[k]);
    TaskWiring(cfg, ts[i].id, u);
    TaskWiring(cfg, ts[k].id, u);
    AllAscend(cfg, n);
    if i < k { assert KeyLess(KeyOf(ts[i].id), KeyOf(ts[k].id)); }
    if k < i { assert KeyLess(KeyOf(ts[k].id), KeyOf(ts[i].id)); }
  }

  // ------------------------------------------------------------------------
  // Which artifacts connect the jobs of an epoch
  // ------------------------------------------------------------------------

  lemma FwdConnects(cfg: Config, e: nat, s: nat, mb: nat, name: string)
    requires s < |cfg.stages|
    ensures s > 0 && name in cfg.stages[s].fwdIn ==> Reads(FwdTask(cfg, e, s, mb), FwdOut(e, s - 1, mb, name))
    ensures name in cfg.stages[s].fwdOut ==> Writes(FwdTask(cfg, e, s, mb), FwdOut(e, s, mb, name))
  {
    var t, st := FwdTask(cfg, e, s, mb), cfg.stages[s];
    if s > 0 && name in st.fwdIn {
      var i :| 0 <= i < |st.fwdIn| && st.fwdIn[i] == name;
      assert t.inputs[i] in t.inputs;
    }
    if name in st.fwdOut {
      var i :| 0 <= i < |st.fwdOut| && st.fwdOut[i] == name;
      assert t.outputs[i] in t.outputs;
    }
  }

  lemma TailMarks(cfg: Config, e: nat, s: nat, mb: nat)
    requires s + 1 == |cfg.stages|
    ensures Writes(FwdTask(cfg, e, s, mb), DoneMark(e, s, mb))
  {
    var t := FwdTask(cfg, e, s, mb);
    assert t.outputs[|t.outputs| - 1] in t.outputs;
  }

  lemma BwdConnects(cfg: Config, e: nat, s: nat, mb: nat)
    requires s < |cfg.stages|
    ensures s > 0 ==> Reads(BwdTask(cfg, e, s, mb), FwdOut(e, s - 1, mb, "x"))
    ensures Writes(BwdTask(cfg, e, s, mb), BwdOut(e, s, mb, "dW"))
    ensures s > 0 && cfg.stages[s].emitsDx ==> Writes(BwdTask(cfg, e, s, mb), BwdOut(e, s, mb, "dL_dx_in"))
  {
    var t := BwdTask(cfg, e, s, mb);
    assert t.outputs[0] in t.outputs;
    if s > 0 {
      assert t.inputs[1] in t.inputs;
      if cfg.stages[s].emitsDx { assert t.outputs[1] in t.outputs; }
    }
  }

  lemma OuterConnects(cfg: Config, e: nat, s: nat, mb: nat)
    requires s < |cfg.stages|
    ensures mb < cfg.microbatches ==> Reads(OuterTask(cfg, e, s), BwdOut(e, s, mb, "dW"))
    ensures Writes(OuterTask(cfg, e, s), Weights(e + 1, s))
  {
    var t := OuterTask(cfg, e, s);
    assert t.outputs[0] in t.outputs;
    if mb < cfg.microbatches { assert t.inputs[1 + mb] in t.inputs; }
  }
}
