/**
 Input names of the pipeline's jobs. A graph finds its inputs by name, and a worker collects them in an
 order that depends on its cache; so a job whose input name stands for two artifacts reads one or
 the other. This module says which configurations emit such a job, and shows one at work.
 */
module StreamingNames {
  import opened Common
  import opened Pipeline
  import opened Dataflow
  import opened StreamingOrch
  import opened WorkerCache
  import opened StreamingRuns
  import opened StreamingTheorems
  import opened StreamingFinish

  // ------------------------------------------------------------------------
  // The names of gradients
  // ------------------------------------------------------------------------

  /** The number that a row of digits stands for. */
  function Reading(text: string): nat
    requires forall i :: 0 <= i < |text| ==> '0' <= text[i] <= '9'
  {
    if text == "" then 0 else 10 * Reading(text[..|text| - 1]) + (text[|text| - 1] as int - '0' as int)
  }

  lemma DigitIs(d: nat)
    requires d < 10
    ensures '0' <= DIGITS[d] <= '9' && DIGITS[d] as int == '0' as int + d
  {
  }

  /** A number is written in digits that stand for it, without a leading zero. */
  lemma {:induction false} DecimalReads(n: nat)
    ensures forall i :: 0 <= i < |Decimal(n)| ==> '0' <= Decimal(n)[i] <= '9'
    ensures Reading(Decimal(n)) == n && (n > 0 ==> Decimal(n)[0] != '0')
  {
    if n < 10 {
      DigitIs(n);
      assert Reading("") == 0 && Decimal(n)[..0] == "";
    } else {
      DecimalReads(n / 10);
      DigitIs(n % 10);
      var text := Decimal(n);
      assert text[..|text| - 1] == Decimal(n / 10);
    }
  }

  /** Different numbers are written differently. */
  lemma DecimalInjective(a: nat, b: nat)
    requires Decimal(a) == Decimal(b)
    ensures a == b
  {
    DecimalReads(a);
    DecimalReads(b);
  }

  lemma GradNamesDiffer(a: nat, b: nat)
    requires GradName(a) == GradName(b)
    ensures a == b
  {
    assert GradName(a)[3..] == Decimal(a) && GradName(b)[3..] == Decimal(b);
    DecimalInjective(a, b);
  }

  // ------------------------------------------------------------------------
  // What each kind of job reads
  // ------------------------------------------------------------------------

  predicate InStatics(cfg: Config, s: nat, j: nat, r: IORef)
    requires j < |cfg.statics|
  {
    InScope(cfg, cfg.statics[j].scope, s) && r == IORef(cfg.statics[j].name, StaticBlob(cfg.statics[j].key))
  }

  predicate ReadsStatic(cfg: Config, s: nat, r: IORef) { exists j :: 0 <= j < |cfg.statics| && InStatics(cfg, s, j, r) }

  lemma {:induction false} StaticRefsMembers(cfg: Config, s: nat, n: nat, r: IORef)
    requires n <= |cfg.statics|
    ensures r in StaticRefs(cfg, s, n) <==> exists j :: 0 <= j < n && InStatics(cfg, s, j, r)
  {
    if n > 0 {
      StaticRefsMembers(cfg, s, n - 1, r);
      if InStatics(cfg, s, n - 1, r) {
        assert r == IORef(cfg.statics[n - 1].name, StaticBlob(cfg.statics[n - 1].key));
      }
    }
  }

  predicate HasTarget(cfg: Config, s: nat) { IsTail(cfg, s) && NamesTarget(cfg) }

  predicate ReadsTarget(cfg: Config, s: nat, r: IORef)
  {
    HasTarget(cfg, s) && r == IORef("target", StaticBlob(cfg.target.value))
  }

  predicate ReadsChained(cfg: Config, e: nat, s: nat, mb: nat, r: IORef)
    requires s < |cfg.stages|
  {
    s > 0 && r.name in cfg.stages[s].fwdIn && r.uri == FwdOut(e, s - 1, mb, r.name)
  }

  predicate ReadsWeights(cfg: Config, e: nat, s: nat, r: IORef)
    requires s < |cfg.stages|
  {
    r == IORef(WeightsName(cfg.stages[s]), Weights(e, s))
  }

  lemma FwdRefs(cfg: Config, e: nat, s: nat, mb: nat, r: IORef)
    requires s < |cfg.stages|
    ensures r in FwdTask(cfg, e, s, mb).inputs <==>
            || ReadsChained(cfg, e, s, mb, r)
            || (cfg.training && NamesWeights(cfg.stages[s]) && ReadsWeights(cfg, e, s, r))
            || (cfg.training && ReadsTarget(cfg, s, r))
            || ReadsStatic(cfg, s, r)
  {
    StaticRefsMembers(cfg, s, |cfg.statics|, r);
    var st := cfg.stages[s];
    if ReadsChained(cfg, e, s, mb, r) {
      var i :| 0 <= i < |st.fwdIn| && st.fwdIn[i] == r.name;
      assert FwdTask(cfg, e, s, mb).inputs[i] == r;
    }
  }

  lemma BwdRefs(cfg: Config, e: nat, s: nat, mb: nat, r: IORef)
    requires s < |cfg.stages|
    ensures r in BwdTask(cfg, e, s, mb).inputs <==>
            || ReadsWeights(cfg, e, s, r)
            || (s > 0 && r == IORef("x_in", FwdOut(e, s - 1, mb, "x")))
            || ReadsTarget(cfg, s, r)
            || ReadsStatic(cfg, s, r)
            || (!IsTail(cfg, s) && r == IORef("dL_dx_out", BwdOut(e, s + 1, mb, "dL_dx_in")))
  {
    StaticRefsMembers(cfg, s, |cfg.statics|, r);
  }

  lemma OuterRefs(cfg: Config, e: nat, s: nat, r: IORef)
    requires s < |cfg.stages|
    ensures r in OuterTask(cfg, e, s).inputs <==>
            || ReadsWeights(cfg, e, s, r)
            || exists mb :: 0 <= mb < cfg.microbatches && r == GradRef(e, s, mb)
  {
    var grads := seq(cfg.microbatches, mb requires 0 <= mb < cfg.microbatches => GradRef(e, s, mb));
    assert OuterTask(cfg, e, s).inputs == [IORef(WeightsName(cfg.stages[s]), Weights(e, s))] + grads;
    if mb :| 0 <= mb < cfg.microbatches && r == GradRef(e, s, mb) {
      assert grads[mb] == r;
    }
  }

  function GradRef(e: nat, s: nat, mb: nat): IORef { IORef(GradName(mb), BwdOut(e, s, mb, "dW")) }

  // ------------------------------------------------------------------------
  // Clashes
  // ------------------------------------------------------------------------

  /** A static input in scope of the stage bears the name. */
  predicate StaticNamed(cfg: Config, s: nat, name: Name)
  {
    exists j :: 0 <= j < |cfg.statics| && InScope(cfg, cfg.statics[j].scope, s) && cfg.statics[j].name == name
  }

  /** A static input in scope of the stage is called "target" and is another artifact than the loss target. */
  predicate OtherTarget(cfg: Config, s: nat)
    requires HasTarget(cfg, s)
  {
    exists j ::
      0 <= j < |cfg.statics| && InScope(cfg, cfg.statics[j].scope, s) && cfg.statics[j].name == "target" &&
      cfg.statics[j].key != cfg.target.value
  }

  /** A forward input is called like a static in scope, like the weights, or "target" where there is one. */
  predicate ChainedClash(cfg: Config, s: nat)
    requires s < |cfg.stages|
  {
    s > 0 && exists name :: name in cfg.stages[s].fwdIn && ChainedNameClash(cfg, s, name)
  }

  predicate ChainedNameClash(cfg: Config, s: nat, name: Name)
    requires s < |cfg.stages|
  {
    || StaticNamed(cfg, s, name)
    || (cfg.training && NamesWeights(cfg.stages[s]) && name == WeightsName(cfg.stages[s]))
    || (cfg.training && HasTarget(cfg, s) && name == "target")
  }

  /** The weights are called like a static in scope, or "target" where there is one. */
  predicate WeightsClash(cfg: Config, s: nat)
    requires s < |cfg.stages|
  {
    StaticNamed(cfg, s, WeightsName(cfg.stages[s])) || (HasTarget(cfg, s) && WeightsName(cfg.stages[s]) == "target")
  }

  predicate FwdClash(cfg: Config, s: nat)
    requires s < |cfg.stages|
  {
    || ChainedClash(cfg, s)
    || (cfg.training && NamesWeights(cfg.stages[s]) && WeightsClash(cfg, s))
    || (cfg.training && HasTarget(cfg, s) && OtherTarget(cfg, s))
  }

  predicate BwdClash(cfg: Config, s: nat)
    requires s < |cfg.stages|
  {
    var w := WeightsName(cfg.stages[s]);
    || WeightsClash(cfg, s)
    || (HasTarget(cfg, s) && OtherTarget(cfg, s))
    || (s > 0 && (w == "x_in" || StaticNamed(cfg, s, "x_in")))
    || (!IsTail(cfg, s) && (w == "dL_dx_out" || StaticNamed(cfg, s, "dL_dx_out")))
  }

  predicate OuterClash(cfg: Config, s: nat)
    requires s < |cfg.stages|
  {
    exists mb :: 0 <= mb < cfg.microbatches && WeightsName(cfg.stages[s]) == GradName(mb)
  }

  /** Some job of the stage has one input name for two artifacts. */
  predicate Clash(cfg: Config, s: nat)
    requires s < |cfg.stages|
  {
    || (cfg.microbatches > 0 && FwdClash(cfg, s))
    || (cfg.training && cfg.stages[s].hasBackward && cfg.microbatches > 0 && BwdClash(cfg, s))
    || (cfg.training && cfg.stages[s].hasOuter && OuterClash(cfg, s))
  }

  /** Two references with one name and different artifacts. */
  lemma TwoArtifacts(refs: seq<IORef>, r: IORef, q: IORef)
    requires r in refs && q in refs && r.name == q.name && r.uri != q.uri
    ensures !NamesFunctional(refs)
  {
  }

  lemma StaticWitness(cfg: Config, s: nat, name: Name) returns (r: IORef)
    requires StaticNamed(cfg, s, name)
    ensures ReadsStatic(cfg, s, r) && r.name == name && r.uri.StaticBlob?
  {
    var j :| 0 <= j < |cfg.statics| && InScope(cfg, cfg.statics[j].scope, s) && cfg.statics[j].name == name;
    r := IORef(cfg.statics[j].name, StaticBlob(cfg.statics[j].key));
    assert InStatics(cfg, s, j, r);
  }

  lemma OtherTargetWitness(cfg: Config, s: nat) returns (r: IORef)
    requires HasTarget(cfg, s) && OtherTarget(cfg, s)
    ensures ReadsStatic(cfg, s, r) && r.name == "target" && r.uri != StaticBlob(cfg.target.value)
  {
    var j :| 0 <= j < |cfg.statics| && InScope(cfg, cfg.statics[j].scope, s) && cfg.statics[j].name == "target" &&
             cfg.statics[j].key != cfg.target.value;
    r := IORef(cfg.statics[j].name, StaticBlob(cfg.statics[j].key));
    assert InStatics(cfg, s, j, r);
  }

  /** Two static inputs of one name are one. */
  lemma StaticsAgree(cfg: Config, s: nat, r: IORef, q: IORef)
    requires ReadsStatic(cfg, s, r) && ReadsStatic(cfg, s, q) && r.name == q.name
    ensures r == q
  {
    var i :| 0 <= i < |cfg.statics| && InStatics(cfg, s, i, r);
    var j :| 0 <= j < |cfg.statics| && InStatics(cfg, s, j, q);
  }

  lemma StaticIsNamed(cfg: Config, s: nat, r: IORef)
    requires ReadsStatic(cfg, s, r)
    ensures r.uri.StaticBlob? && StaticNamed(cfg, s, r.name)
    ensures HasTarget(cfg, s) && r.name == "target" && r.uri != StaticBlob(cfg.target.value) ==> OtherTarget(cfg, s)
  {
    var j :| 0 <= j < |cfg.statics| && InStatics(cfg, s, j, r);
  }

  // ------------------------------------------------------------------------
  // Forward jobs
  // ------------------------------------------------------------------------

  lemma ChainedClashes(cfg: Config, e: nat, s: nat, mb: nat)
    requires s < |cfg.stages| && ChainedClash(cfg, s)
    ensures !NamesFunctional(FwdTask(cfg, e, s, mb).inputs)
  {
    var name :| name in cfg.stages[s].fwdIn && ChainedNameClash(cfg, s, name);
    var r, q := IORef(name, FwdOut(e, s - 1, mb, name)), IORef(name, Weights(e, s));
    if StaticNamed(cfg, s, name) {
      q := StaticWitness(cfg, s, name);
    } else if cfg.training && HasTarget(cfg, s) && name == "target" {
      q := IORef("target", StaticBlob(cfg.target.value));
    }
    FwdRefs(cfg, e, s, mb, r);
    FwdRefs(cfg, e, s, mb, q);
    TwoArtifacts(FwdTask(cfg, e, s, mb).inputs, r, q);
  }

  /** An artifact that bears the name of the weights. */
  lemma WeightsRival(cfg: Config, s: nat) returns (q: IORef)
    requires s < |cfg.stages| && WeightsClash(cfg, s)
    ensures q.name == WeightsName(cfg.stages[s]) && q.uri.StaticBlob?
    ensures ReadsStatic(cfg, s, q) || ReadsTarget(cfg, s, q)
  {
    if StaticNamed(cfg, s, WeightsName(cfg.stages[s])) {
      q := StaticWitness(cfg, s, WeightsName(cfg.stages[s]));
    } else {
      q := IORef("target", StaticBlob(cfg.target.value));
    }
  }

  lemma FwdClashes(cfg: Config, e: nat, s: nat, mb: nat)
    requires s < |cfg.stages| && FwdClash(cfg, s)
    ensures !NamesFunctional(FwdTask(cfg, e, s, mb).inputs)
  {
    if ChainedClash(cfg, s) {
      ChainedClashes(cfg, e, s, mb);
    } else {
      var r, q := IORef("target", StaticBlob("")), IORef("target", StaticBlob(""));
      if cfg.training && HasTarget(cfg, s) && OtherTarget(cfg, s) {
        r := IORef("target", StaticBlob(cfg.target.value));
        q := OtherTargetWitness(cfg, s);
      } else {
        r := IORef(WeightsName(cfg.stages[s]), Weights(e, s));
        q := WeightsRival(cfg, s);
      }
      FwdRefs(cfg, e, s, mb, r);
      FwdRefs(cfg, e, s, mb, q);
      TwoArtifacts(FwdTask(cfg, e, s, mb).inputs, r, q);
    }
  }

  lemma ChainedAgrees(cfg: Config, e: nat, s: nat, mb: nat, r: IORef, q: IORef)
    requires s < |cfg.stages| && !FwdClash(cfg, s) && ReadsChained(cfg, e, s, mb, r) && r.name == q.name
    requires q in FwdTask(cfg, e, s, mb).inputs
    ensures r.uri == q.uri
  {
    FwdRefs(cfg, e, s, mb, q);
    assert !ChainedNameClash(cfg, s, r.name);
    if ReadsStatic(cfg, s, q) {
      StaticIsNamed(cfg, s, q);
    }
  }

  lemma GivenAgrees(cfg: Config, s: nat, r: IORef, q: IORef)
    requires ReadsTarget(cfg, s, r) || ReadsStatic(cfg, s, r)
    requires ReadsTarget(cfg, s, q) || ReadsStatic(cfg, s, q)
    requires r.name == q.name && (HasTarget(cfg, s) ==> !OtherTarget(cfg, s))
    ensures r.uri == q.uri
  {
    if ReadsStatic(cfg, s, r) {
      StaticIsNamed(cfg, s, r);
    }
    if ReadsStatic(cfg, s, q) {
      StaticIsNamed(cfg, s, q);
    }
    if ReadsStatic(cfg, s, r) && ReadsStatic(cfg, s, q) {
      StaticsAgree(cfg, s, r, q);
    }
  }

  /** A static or target called like the weights is a clash. */
  lemma NoRival(cfg: Config, s: nat, q: IORef)
    requires s < |cfg.stages| && !WeightsClash(cfg, s) && (ReadsTarget(cfg, s, q) || ReadsStatic(cfg, s, q))
    ensures q.name != WeightsName(cfg.stages[s])
  {
    if ReadsStatic(cfg, s, q) {
      StaticIsNamed(cfg, s, q);
    }
  }

  lemma FwdAgree(cfg: Config, e: nat, s: nat, mb: nat, r: IORef, q: IORef)
    requires s < |cfg.stages| && !FwdClash(cfg, s) && r.name == q.name
    requires r in FwdTask(cfg, e, s, mb).inputs && q in FwdTask(cfg, e, s, mb).inputs
    ensures r.uri == q.uri
  {
    FwdRefs(cfg, e, s, mb, r);
    FwdRefs(cfg, e, s, mb, q);
    if ReadsChained(cfg, e, s, mb, r) {
      ChainedAgrees(cfg, e, s, mb, r, q);
    } else if ReadsChained(cfg, e, s, mb, q) {
      ChainedAgrees(cfg, e, s, mb, q, r);
    } else {
      FwdOthersAgree(cfg, e, s, r, q);
    }
  }

  ghost predicate FwdOther(cfg: Config, e: nat, s: nat, r: IORef)
    requires s < |cfg.stages|
  {
    || (cfg.training && NamesWeights(cfg.stages[s]) && ReadsWeights(cfg, e, s, r))
    || (cfg.training && ReadsTarget(cfg, s, r))
    || ReadsStatic(cfg, s, r)
  }

  lemma FwdOthersAgree(cfg: Config, e: nat, s: nat, r: IORef, q: IORef)
    requires s < |cfg.stages| && !FwdClash(cfg, s) && r.name == q.name
    requires FwdOther(cfg, e, s, r) && FwdOther(cfg, e, s, q)
    ensures r.uri == q.uri
  {
    if cfg.training && NamesWeights(cfg.stages[s]) && (ReadsTarget(cfg, s, r) || ReadsStatic(cfg, s, r)) {
      NoRival(cfg, s, r);
    }
    if cfg.training && NamesWeights(cfg.stages[s]) && (ReadsTarget(cfg, s, q) || ReadsStatic(cfg, s, q)) {
      NoRival(cfg, s, q);
    }
    if !cfg.training {
      StaticsAgree(cfg, s, r, q);
    } else if (ReadsTarget(cfg, s, r) || ReadsStatic(cfg, s, r)) && (ReadsTarget(cfg, s, q) || ReadsStatic(cfg, s, q)) {
      GivenAgrees(cfg, s, r, q);
    }
  }

  lemma FwdNamesIff(cfg: Config, e: nat, s: nat, mb: nat)
    requires s < |cfg.stages|
    ensures NamesFunctional(FwdTask(cfg, e, s, mb).inputs) <==> !FwdClash(cfg, s)
  {
    if FwdClash(cfg, s) {
      FwdClashes(cfg, e, s, mb);
    } else {
      var refs := FwdTask(cfg, e, s, mb).inputs;
      forall r, q | r in refs && q in refs && r.name == q.name ensures r.uri == q.uri {
        FwdAgree(cfg, e, s, mb, r, q);
      }
    }
  }

  // ------------------------------------------------------------------------
  // Backward jobs
  // ------------------------------------------------------------------------

  function XIn(e: nat, s: nat, mb: nat): IORef
    requires s > 0
  {
    IORef("x_in", FwdOut(e, s - 1, mb, "x"))
  }

  function DOut(e: nat, s: nat, mb: nat): IORef { IORef("dL_dx_out", BwdOut(e, s + 1, mb, "dL_dx_in")) }

  lemma BwdClashes(cfg: Config, e: nat, s: nat, mb: nat)
    requires s < |cfg.stages| && BwdClash(cfg, s)
    ensures !NamesFunctional(BwdTask(cfg, e, s, mb).inputs)
  {
    var r, q := BwdRivals(cfg, e, s, mb);
    BwdRefs(cfg, e, s, mb, r);
    BwdRefs(cfg, e, s, mb, q);
    TwoArtifacts(BwdTask(cfg, e, s, mb).inputs, r, q);
  }

  ghost predicate BwdReads(cfg: Config, e: nat, s: nat, mb: nat, r: IORef)
    requires s < |cfg.stages|
  {
    || ReadsWeights(cfg, e, s, r) || ReadsTarget(cfg, s, r) || ReadsStatic(cfg, s, r)
    || (s > 0 && r == XIn(e, s, mb)) || (!IsTail(cfg, s) && r == DOut(e, s, mb))
  }

  lemma BwdRivals(cfg: Config, e: nat, s: nat, mb: nat) returns (r: IORef, q: IORef)
    requires s < |cfg.stages| && BwdClash(cfg, s)
    ensures BwdReads(cfg, e, s, mb, r) && BwdReads(cfg, e, s, mb, q) && r.name == q.name && r.uri != q.uri
  {
    var weights := IORef(WeightsName(cfg.stages[s]), Weights(e, s));
    if WeightsClash(cfg, s) {
      r := weights;
      q := WeightsRival(cfg, s);
    } else if HasTarget(cfg, s) && OtherTarget(cfg, s) {
      r := IORef("target", StaticBlob(cfg.target.value));
      q := OtherTargetWitness(cfg, s);
    } else if s > 0 && (weights.name == "x_in" || StaticNamed(cfg, s, "x_in")) {
      r, q := XIn(e, s, mb), weights;
      if weights.name != "x_in" {
        q := StaticWitness(cfg, s, "x_in");
      }
    } else {
      r, q := DOut(e, s, mb), weights;
      if weights.name != "dL_dx_out" {
        q := StaticWitness(cfg, s, "dL_dx_out");
      }
    }
  }

  /** A reference called like one that comes from another job of the epoch is that reference. */
  lemma BwdJobAgrees(cfg: Config, e: nat, s: nat, mb: nat, r: IORef, q: IORef)
    requires s < |cfg.stages| && !BwdClash(cfg, s) && r.name == q.name && BwdReads(cfg, e, s, mb, q)
    requires (s > 0 && r == XIn(e, s, mb)) || (!IsTail(cfg, s) && r == DOut(e, s, mb))
    ensures r.uri == q.uri
  {
    if ReadsStatic(cfg, s, q) {
      StaticIsNamed(cfg, s, q);
    }
  }

  lemma BwdAgree(cfg: Config, e: nat, s: nat, mb: nat, r: IORef, q: IORef)
    requires s < |cfg.stages| && !BwdClash(cfg, s) && r.name == q.name
    requires BwdReads(cfg, e, s, mb, r) && BwdReads(cfg, e, s, mb, q)
    ensures r.uri == q.uri
  {
    if (s > 0 && r == XIn(e, s, mb)) || (!IsTail(cfg, s) && r == DOut(e, s, mb)) {
      BwdJobAgrees(cfg, e, s, mb, r, q);
    } else if (s > 0 && q == XIn(e, s, mb)) || (!IsTail(cfg, s) && q == DOut(e, s, mb)) {
      BwdJobAgrees(cfg, e, s, mb, q, r);
    } else {
      BwdOthersAgree(cfg, e, s, r, q);
    }
  }

  lemma BwdOthersAgree(cfg: Config, e: nat, s: nat, r: IORef, q: IORef)
    requires s < |cfg.stages| && !WeightsClash(cfg, s) && r.name == q.name
    requires HasTarget(cfg, s) ==> !OtherTarget(cfg, s)
    requires ReadsWeights(cfg, e, s, r) || ReadsTarget(cfg, s, r) || ReadsStatic(cfg, s, r)
    requires ReadsWeights(cfg, e, s, q) || ReadsTarget(cfg, s, q) || ReadsStatic(cfg, s, q)
    ensures r.uri == q.uri
  {
    if ReadsTarget(cfg, s, r) || ReadsStatic(cfg, s, r) {
      NoRival(cfg, s, r);
    }
    if ReadsTarget(cfg, s, q) || ReadsStatic(cfg, s, q) {
      NoRival(cfg, s, q);
    }
    if (ReadsTarget(cfg, s, r) || ReadsStatic(cfg, s, r)) && (ReadsTarget(cfg, s, q) || ReadsStatic(cfg, s, q)) {
      GivenAgrees(cfg, s, r, q);
    }
  }

  lemma BwdNamesIff(cfg: Config, e: nat, s: nat, mb: nat)
    requires s < |cfg.stages|
    ensures NamesFunctional(BwdTask(cfg, e, s, mb).inputs) <==> !BwdClash(cfg, s)
  {
    if BwdClash(cfg, s) {
      BwdClashes(cfg, e, s, mb);
    } else {
      var refs := BwdTask(cfg, e, s, mb).inputs;
      forall r, q | r in refs && q in refs && r.name == q.name ensures r.uri == q.uri {
        BwdRefs(cfg, e, s, mb, r);
        BwdRefs(cfg, e, s, mb, q);
        BwdAgree(cfg, e, s, mb, r, q);
      }
    }
  }

  // ------------------------------------------------------------------------
  // Outer jobs, and the whole configuration
  // ------------------------------------------------------------------------

  lemma OuterAgree(cfg: Config, e: nat, s: nat, r: IORef, q: IORef)
    requires s < |cfg.stages| && !OuterClash(cfg, s) && r.name == q.name
    requires r in OuterTask(cfg, e, s).inputs && q in OuterTask(cfg, e, s).inputs
    ensures r.uri == q.uri
  {
    OuterRefs(cfg, e, s, r);
    OuterRefs(cfg, e, s, q);
    if !ReadsWeights(cfg, e, s, r) && !ReadsWeights(cfg, e, s, q) {
      var a :| 0 <= a < cfg.microbatches && r == GradRef(e, s, a);
      var b :| 0 <= b < cfg.microbatches && q == GradRef(e, s, b);
      GradNamesDiffer(a, b);
    }
  }

  lemma OuterNamesIff(cfg: Config, e: nat, s: nat)
    requires s < |cfg.stages|
    ensures NamesFunctional(OuterTask(cfg, e, s).inputs) <==> !OuterClash(cfg, s)
  {
    var refs := OuterTask(cfg, e, s).inputs;
    if OuterClash(cfg, s) {
      var mb :| 0 <= mb < cfg.microbatches && WeightsName(cfg.stages[s]) == GradName(mb);
      var r, q := IORef(WeightsName(cfg.stages[s]), Weights(e, s)), GradRef(e, s, mb);
      OuterRefs(cfg, e, s, r);
      OuterRefs(cfg, e, s, q);
      TwoArtifacts(refs, r, q);
    } else {
      forall r, q | r in refs && q in refs && r.name == q.name ensures r.uri == q.uri {
        OuterAgree(cfg, e, s, r, q);
      }
    }
  }

  /** A clash that some job of the stage has. */
  lemma ClashingJob(cfg: Config, s: nat) returns (id: JobId)
    requires s < |cfg.stages| && Clash(cfg, s)
    ensures Emits(cfg, id) && id.stage == s && !NamesFunctional(TaskOf(cfg, id).inputs)
  {
    if cfg.microbatches > 0 && FwdClash(cfg, s) {
      id := Fwd(0, s, 0);
      FwdNamesIff(cfg, 0, s, 0);
    } else if cfg.training && cfg.stages[s].hasBackward && cfg.microbatches > 0 && BwdClash(cfg, s) {
      id := Bwd(0, s, 0);
      BwdNamesIff(cfg, 0, s, 0);
    } else {
      id := Outer(0, s);
      OuterNamesIff(cfg, 0, s);
    }
  }

  lemma JobNames(cfg: Config, id: JobId)
    requires Emits(cfg, id) && !Clash(cfg, id.stage)
    ensures NamesFunctional(TaskOf(cfg, id).inputs)
  {
    match id
    case Fwd(e, s, mb) => FwdNamesIff(cfg, e, s, mb);
    case Bwd(e, s, mb) => BwdNamesIff(cfg, e, s, mb);
    case Outer(e, s) => OuterNamesIff(cfg, e, s);
  }

  ghost predicate NoClash(cfg: Config) { forall s :: 0 <= s < |cfg.stages| ==> !Clash(cfg, s) }

  /**
   Exactly the configurations without a clash emit only jobs whose input names stand for one artifact each.
   A clash is a static in scope, the loss target, the previous stage's activations, the next
   stage's gradient or a microbatch's gradient under the name of the weights; or a static or forward
   input under the name of another input.
   */
  lemma NamesOkIff(cfg: Config)
    ensures NamesOk(cfg) <==> NoClash(cfg)
  {
    if NoClash(cfg) {
      forall id | Emits(cfg, id) ensures NamesFunctional(TaskOf(cfg, id).inputs) {
        JobNames(cfg, id);
      }
    } else {
      var s :| 0 <= s < |cfg.stages| && Clash(cfg, s);
      var id := ClashingJob(cfg, s);
    }
  }

  /** What the jobs of the configuration read does not depend on any cache. */
  ghost predicate CacheIndependent(cfg: Config)
  {
    forall id :: Emits(cfg, id) ==> SameInputsUnderAnyCache(TaskOf(cfg, id).inputs)
  }

  /** No job's inputs depend on the worker's cache if and only if the configuration has no clash. */
  lemma CacheIndependentIff(cfg: Config, v: Value, w: Value)
    requires v != w
    ensures CacheIndependent(cfg) <==> NoClash(cfg)
  {
    NamesOkIff(cfg);
    forall id | Emits(cfg, id)
      ensures NamesFunctional(TaskOf(cfg, id).inputs) <==> SameInputsUnderAnyCache(TaskOf(cfg, id).inputs)
    {
      CacheOrderIndependence(TaskOf(cfg, id).inputs, v, w);
    }
  }

  // ------------------------------------------------------------------------
  // A clash at work
  // ------------------------------------------------------------------------

  /** Training with one static blob for all stages that is called like the weights of stage 0. */
  function Clashing(base: Config, name: Name, key: string): Config
    requires |base.stages| > 0
  {
    base.(training := true, stages := base.stages[0 := base.stages[0].(weightsName := Some(name))],
          statics := [StaticInput(name, key, All)])
  }

  /** Its first forward job has two artifacts under that name, and reads one or the other as the cache decides. */
  lemma WeightsNameCanClash(base: Config, name: Name, key: string, v: Value, w: Value)
    returns (store: Store, cached: set<Uri>)
    requires |base.stages| > 0 && base.microbatches > 0 && name != "" && v != w
    ensures var cfg := Clashing(base, name, key);
            Clash(cfg, 0) && Emits(cfg, Fwd(0, 0, 0)) && !NamesFunctional(TaskOf(cfg, Fwd(0, 0, 0)).inputs)
    ensures var t := TaskOf(Clashing(base, name, key), Fwd(0, 0, 0));
            InputsPresent(t, store) && Gather(FetchOrder(t.inputs, cached), store) != Gather(t.inputs, store)
  {
    var cfg := Clashing(base, name, key);
    assert cfg.statics[0] == StaticInput(name, key, All);
    assert StaticNamed(cfg, 0, name) && WeightsName(cfg.stages[0]) == name;
    FwdNamesIff(cfg, 0, 0, 0);
    store, cached := CacheOrderMatters(TaskOf(cfg, Fwd(0, 0, 0)).inputs, v, w);
  }

  /** The weights and the one static of stage 0 under one name, and no loss target there. */
  ghost predicate TwoUnderOneName(cfg: Config, name: Name, key: string)
  {
    && |cfg.stages| > 0 && cfg.training && NamesWeights(cfg.stages[0]) && WeightsName(cfg.stages[0]) == name
    && cfg.statics == [StaticInput(name, key, All)] && !HasTarget(cfg, 0)
  }

  lemma TwoInputs(cfg: Config, name: Name, key: string)
    requires TwoUnderOneName(cfg, name, key)
    ensures FwdTask(cfg, 0, 0, 0).inputs == [IORef(name, Weights(0, 0)), IORef(name, StaticBlob(key))]
  {
    assert StaticRefs(cfg, 0, 0) == [];
    assert StaticRefs(cfg, 0, 1) == [IORef(name, StaticBlob(key))];
  }

  lemma KeepOne(r: IORef, uris: set<Uri>, inside: bool)
    ensures Keep([r], uris, inside) == if (r.uri in uris) == inside then [r] else []
  {
    assert [r][..0] == [];
  }

  function IfKept(r: IORef, uris: set<Uri>, inside: bool): seq<IORef> { if (r.uri in uris) == inside then [r] else [] }

  lemma KeepTwo(r: IORef, q: IORef, uris: set<Uri>, inside: bool)
    ensures Keep([r, q], uris, inside) == IfKept(r, uris, inside) + IfKept(q, uris, inside)
  {
    var refs := [r, q];
    assert refs[..1] == [r];
    KeepOne(r, uris, inside);
  }

  lemma OrderOfTwo(r: IORef, q: IORef, cached: set<Uri>)
    ensures FetchOrder([r, q], cached) == if r.uri !in cached && q.uri in cached then [q, r] else [r, q]
  {
    KeepTwo(r, q, cached, true);
    KeepTwo(r, q, cached, false);
  }

  /** The reference that comes last wins; a cached one comes first. */
  lemma TwoOrders(name: Name, a: Uri, b: Uri, store: Store)
    requires a != b && a in store && b in store
    ensures var refs := [IORef(name, a), IORef(name, b)];
            && Gather(FetchOrder(refs, {}), store) == map[name := store[b]]
            && Gather(FetchOrder(refs, {b}), store) == map[name := store[a]]
  {
    var ra, rb := IORef(name, a), IORef(name, b);
    OrderOfTwo(ra, rb, {});
    OrderOfTwo(ra, rb, {b});
    GatherTwo(ra, rb, store);
    GatherTwo(rb, ra, store);
  }

  lemma GatherTwo(r: IORef, q: IORef, store: Store)
    requires r.uri in store && q.uri in store && r.name == q.name
    ensures Gather([r, q], store) == map[q.name := store[q.uri]]
  {
    var refs := [r, q];
    assert refs[..1] == [r] && [r][..0] == [];
    assert Gather([r], store) == map[r.name := store[r.uri]];
  }

  /** After both inputs are fetched, a cache that the weights are too large for holds the static blob alone. */
  lemma OnlySmallCached(limit: nat, size: Value -> nat, a: Uri, b: Uri, big: Value, small: Value)
    requires a != b && size(big) > limit / 2 >= size(small)
    ensures InsertAll(Empty(limit), [(a, big), (b, small)], size).entries == map[b := small]
  {
    var puts := [(a, big), (b, small)];
    assert puts[..1] == [(a, big)] && puts[..1][..0] == [];
    assert InsertAll(Empty(limit), puts[..1], size) == Empty(limit);
    assert InsertAll(Empty(limit), puts, size) == Insert(Empty(limit), b, small, size);
  }

  /** What worker 0 reads in a state whose bucket is `init`, by what it has cached. */
  lemma InputsByCache(w: World, s: State, init: Store, name: Name, key: string)
    requires TwoUnderOneName(w.cfg, name, key) && s.bucket == init
    requires Weights(0, 0) in init && StaticBlob(key) in init && ReadAll(CachesOf(w, s, 0), init) == init
    ensures var t, cached := TaskOf(w.cfg, Fwd(0, 0, 0)), CachedKeys(CachesOf(w, s, 0));
            && InputsPresent(t, s.bucket)
            && (cached == {} ==> WorkerInputs(w, s, 0, t) == map[name := init[StaticBlob(key)]])
            && (cached == {StaticBlob(key)} ==> WorkerInputs(w, s, 0, t) == map[name := init[Weights(0, 0)]])
  {
    TwoInputs(w.cfg, name, key);
    TwoOrders(name, Weights(0, 0), StaticBlob(key), init);
  }

  /** The pickup that fetches both inputs. */
  lemma FetchBoth(w: World, s: State, init: Store, key: string, id: JobId, now: int, a: Uri, b: Uri) returns (s': State)
    requires |w.cfg.stages| > 0 && a == Weights(0, 0) && b == StaticBlob(key) && a in init && b in init
    requires s.bucket == init && s.caches == map[] && s.clock <= now && MayPickup(s, 0, id, now)
    requires var t := s.orch.manifests[id].task; |t.inputs| == 2 && t.inputs[0].uri == a && t.inputs[1].uri == b
    requires w.size(init[a]) > w.inLimit / 2 >= w.size(init[b])
    ensures Next(w, s, Pickup(0, id, now, [a, b]), s') && s'.bucket == init && s'.orch == s.orch
    ensures CachedKeys(CachesOf(w, s', 0)) == {b} && ReadAll(CachesOf(w, s', 0), init) == init
  {
    var t := s.orch.manifests[id].task;
    var puts := Outcome(w.cfg, t, WorkerInputs(w, s, 0, t));
    var c := Caches(Empty(w.outLimit), InsertAll(Empty(w.inLimit), Pairs([a, b], init), w.size));
    assert Pairs([a, b], init) == [(a, init[a]), (b, init[b])];
    OnlySmallCached(w.inLimit, w.size, a, b, init[a], init[b]);
    assert c.outs.entries == map[] && c.ins.entries == map[b := init[b]];
    BothDownloaded(w, s, t, a, b);
    s' := s.(caches := s.caches[0 := c], flights := s.flights + Uploads(0, puts), clock := now);
  }

  /**
   A reachable clash: the same worker may pick up the same job twice, a second apart when the first attempt has
   stored nothing, and evaluates it on the static blob the first time and on the weights the second time,
   because the blob is then in its cache.
   */
  lemma SameJobTwoInputs(w: World, init: Store, now: int, name: Name, key: string)
    returns (states: seq<State>, labels: seq<Label>)
    requires TwoUnderOneName(w.cfg, name, key) && Given(init) && FwdTask(w.cfg, 0, 0, 0).outputs != []
    requires w.cfg.microbatches > 0 && w.cfg.maxEpochs > 0 && w.knobs.retryAfter > 0 && w.knobs.deadlineSec >= 1
    requires Weights(0, 0) in init && StaticBlob(key) in init
    requires w.size(init[Weights(0, 0)]) > w.inLimit / 2 >= w.size(init[StaticBlob(key)])
    ensures ValidRun(w, init, states, labels) && |labels| == 2
    ensures MayPickup(states[1], 0, Fwd(0, 0, 0), now) && MayPickup(states[2], 0, Fwd(0, 0, 0), now + 1)
    ensures var t := TaskOf(w.cfg, Fwd(0, 0, 0));
            && InputsPresent(t, states[1].bucket) && InputsPresent(t, states[2].bucket)
            && WorkerInputs(w, states[1], 0, t) == map[name := init[StaticBlob(key)]]
            && WorkerInputs(w, states[2], 0, t) == map[name := init[Weights(0, 0)]]
  {
    var id := Fwd(0, 0, 0);
    var s0 := State(Fresh(), init, map[], {}, now);
    var o := FirstTick(w, init, now, id);
    var s1 := s0.(orch := o);
    var tick := OrchTick([Everywhere(0, |w.cfg.stages|, now)], now, true);
    ExtendRun(w, init, [s0], [], tick, s1);
    MissingAtFirst(w.cfg, init);
    TwoInputs(w.cfg, name, key);
    assert CachedKeys(CachesOf(w, s1, 0)) == {} && ReadAll(CachesOf(w, s1, 0), init) == init;
    InputsByCache(w, s1, init, name, key);
    var s2 := FetchBoth(w, s1, init, key, id, now, Weights(0, 0), StaticBlob(key));
    InputsByCache(w, s2, init, name, key);
    var pickup := Pickup(0, id, now, [Weights(0, 0), StaticBlob(key)]);
    ExtendRun(w, init, [s0] + [s1], [] + [tick], pickup, s2);
    states, labels := [s0] + [s1] + [s2], [] + [tick] + [pickup];
  }

  /** No forward output is given. */
  lemma MissingAtFirst(cfg: Config, init: Store)
    requires Given(init) && |cfg.stages| > 0 && FwdTask(cfg, 0, 0, 0).outputs != []
    ensures !OutputsPresent(FwdTask(cfg, 0, 0, 0), init)
  {
    var t := FwdTask(cfg, 0, 0, 0);
    var o := t.outputs[0];
    assert o in t.outputs && Writes(t, o.uri);
    TaskWiring(cfg, Fwd(0, 0, 0), o.uri);
  }

  lemma BothDownloaded(w: World, s: State, t: Task, a: Uri, b: Uri)
    requires Cacheable(a) && Cacheable(b) && a in s.bucket && b in s.bucket && CachedKeys(CachesOf(w, s, 0)) == {}
    requires |t.inputs| == 2 && t.inputs[0].uri == a && t.inputs[1].uri == b
    ensures Downloads(w, s, 0, t, [a, b])
  {
    assert t.inputs[0] in t.inputs && t.inputs[1] in t.inputs;
    assert Reads(t, a) && Reads(t, b);
  }
}
