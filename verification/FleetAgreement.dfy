/** Every interleaving of the fleet computes what one run in lockstep computes. */
module FleetAgreement {
  import opened Common
  import opened Reals
  import opened Mean
  import EF = ErrorFeedback
  import opened Fleet

  /** All ranks between two outer steps: the common parameters and each rank's buffer. */
  datatype Global = Global(theta: Vec, efs: seq<Vec>)

  ghost predicate GlobalSized<B>(w: World<B>, g: Global)
  {
    |g.theta| == w.size && |g.efs| == w.ranks && SameSize(w.size, g.efs)
  }

  function RankOf(g: Global, r: nat, t: nat): Rank
    requires r < |g.efs|
  {
    Rank(g.theta, g.efs[r], t, None, false)
  }

  function AccAt<B>(w: World<B>, g: Global, t: nat, r: nat): (a: Vec)
    requires Valid(w) && GlobalSized(w, g) && r < w.ranks
    ensures |a| == w.size
  {
    Acc(w, r, RankOf(g, r, t))
  }

  /** What rank `r` takes for sent, and what its peers decode. */
  function DenseAt<B>(w: World<B>, g: Global, t: nat, r: nat): (d: Vec)
    requires Valid(w) && GlobalSized(w, g) && r < w.ranks
    ensures |d| == w.size
  {
    w.dense(AccAt(w, g, t, r))
  }

  function GotAt<B>(w: World<B>, g: Global, t: nat, r: nat): (d: Vec)
    requires Valid(w) && GlobalSized(w, g) && r < w.ranks
    ensures |d| == w.size
  {
    w.unwire(w.wire(AccAt(w, g, t, r)))
  }

  function Gots<B>(w: World<B>, g: Global, t: nat): (vs: seq<Vec>)
    requires Valid(w) && GlobalSized(w, g)
    ensures |vs| == w.ranks && SameSize(w.size, vs)
  {
    seq(w.ranks, r requires 0 <= r < w.ranks => GotAt(w, g, t, r))
  }

  /** What the wire adds to what rank `r` takes for sent. */
  function WireError<B>(w: World<B>, g: Global, t: nat, r: nat): Vec
    requires Valid(w) && GlobalSized(w, g) && r < w.ranks
  {
    Sub(GotAt(w, g, t, r), DenseAt(w, g, t, r))
  }

  /** The vectors that rank `a` averages. */
  function SeenBy<B>(w: World<B>, g: Global, t: nat, a: nat): (vs: seq<Vec>)
    requires Valid(w) && GlobalSized(w, g) && a < w.ranks
    ensures |vs| == w.ranks && SameSize(w.size, vs)
  {
    Gots(w, g, t)[a := DenseAt(w, g, t, a)]
  }

  /** The parameters after a step whose average rank `a` has made. */
  function StepBy<B>(w: World<B>, g: Global, t: nat, a: nat): (v: Vec)
    requires Valid(w) && GlobalSized(w, g) && a < w.ranks
    ensures |v| == w.size
  {
    Moved(w, g.theta, Mean.Mean(w.size, w.ranks, SeenBy(w, g, t, a)))
  }

  function NextBuffers<B>(w: World<B>, g: Global, t: nat): (efs: seq<Vec>)
    requires Valid(w) && GlobalSized(w, g)
    ensures |efs| == w.ranks && SameSize(w.size, efs)
  {
    seq(w.ranks, r requires 0 <= r < w.ranks => Sub(AccAt(w, g, t, r), DenseAt(w, g, t, r)))
  }

  /** The run in lockstep, with rank 0's averages. */
  function Ref<B>(w: World<B>, t: nat): (g: Global)
    requires Valid(w)
    ensures GlobalSized(w, g)
  {
    if t == 0 then Global(w.init, seq(w.ranks, r => Zeros(w.size)))
    else
      var g := Ref(w, t - 1);
      Global(StepBy(w, g, t - 1, 0), NextBuffers(w, g, t - 1))
  }

  // ------------------------------------------------------------------------
  // When averages agree
  // ------------------------------------------------------------------------

  lemma MovedInjective<B>(w: World<B>, theta: Vec, x: Vec, y: Vec)
    requires w.alpha != 0.0 && |theta| == |x| == |y|
    ensures Moved(w, theta, x) == Moved(w, theta, y) <==> x == y
  {
    var p, q := Moved(w, theta, x), Moved(w, theta, y);
    if p == q {
      forall i | 0 <= i < |x| ensures x[i] == y[i] {
        assert p[i] == theta[i] - w.alpha * x[i] && q[i] == theta[i] - w.alpha * y[i];
        CancelFactor(w.alpha, x[i], y[i]);
      }
    }
  }

  lemma CancelFactor(a: real, x: real, y: real)
    requires a != 0.0 && a * x == a * y
    ensures x == y
  {
    assert a * (x - y) == 0.0;
  }

  /**
   From common parameters two ranks' own averages take them to the same place exactly when the wire adds the
   same to both.
   */
  lemma StepsAgreeIff<B>(w: World<B>, g: Global, t: nat, a: nat, b: nat)
    requires Valid(w) && GlobalSized(w, g) && a < w.ranks && b < w.ranks && w.alpha != 0.0
    ensures StepBy(w, g, t, a) == StepBy(w, g, t, b) <==> WireError(w, g, t, a) == WireError(w, g, t, b)
  {
    CorrectedMeans(w.size, w.ranks, Gots(w, g, t), a, DenseAt(w, g, t, a), b, DenseAt(w, g, t, b));
    MovedInjective(w, g.theta, Mean.Mean(w.size, w.ranks, SeenBy(w, g, t, a)),
      Mean.Mean(w.size, w.ranks, SeenBy(w, g, t, b)));
  }

  lemma EqualErrorsStep<B>(w: World<B>, g: Global, t: nat, a: nat)
    requires Valid(w) && GlobalSized(w, g) && a < w.ranks && WireError(w, g, t, a) == WireError(w, g, t, 0)
    ensures StepBy(w, g, t, a) == StepBy(w, g, t, 0)
  {
    CorrectedMeans(w.size, w.ranks, Gots(w, g, t), a, DenseAt(w, g, t, a), 0, DenseAt(w, g, t, 0));
  }

  /** At step `t` of the lockstep run the wire adds the same to what every rank sends. */
  predicate EqualErrors<B>(w: World<B>, t: nat)
    requires Valid(w)
  {
    forall r :: 0 <= r < w.ranks ==> WireError(w, Ref(w, t), t, r) == WireError(w, Ref(w, t), t, 0)
  }

  /** Before step `end`, averages are read from rank 0 or the wire adds the same to what every rank sends. */
  predicate AgreeBefore<B>(w: World<B>, end: nat)
    requires Valid(w)
  {
    w.star || forall t :: 0 <= t < end ==> EqualErrors(w, t)
  }

  // ------------------------------------------------------------------------
  // Every run follows the lockstep run
  // ------------------------------------------------------------------------

  function Aggregator<B>(w: World<B>, r: nat): nat { if w.star then 0 else r }

  /** Rank `r` is where the lockstep run is, as far as `end`, and one step on where its own average takes it. */
  ghost predicate Follows<B>(w: World<B>, end: nat, r: nat, k: Rank)
    requires Valid(w) && r < w.ranks
  {
    && (k.done <= end ==> k.theta == Ref(w, k.done).theta && SentFollows(w, r, k))
    && (k.done == end + 1 ==> k.theta == StepBy(w, Ref(w, end), end, Aggregator(w, r)))
  }

  ghost predicate SentFollows<B>(w: World<B>, r: nat, k: Rank)
    requires Valid(w) && r < w.ranks
  {
    var g := Ref(w, k.done);
    match k.sent
    case None => k.ef == g.efs[r]
    case Some(v) => k.ef == NextBuffers(w, g, k.done)[r] && v == DenseAt(w, g, k.done, r)
  }

  ghost predicate BodyFollows<B>(w: World<B>, s: State<B>, t: nat, r: nat)
    requires Valid(w)
  {
    (t, r) in s.peers ==> r < w.ranks && s.peers[(t, r)] == w.wire(AccAt(w, Ref(w, t), t, r))
  }

  ghost predicate AggregateFollows<B>(w: World<B>, s: State<B>, t: nat)
    requires Valid(w)
  {
    t in s.aggregates ==> s.aggregates[t] == Mean.Mean(w.size, w.ranks, SeenBy(w, Ref(w, t), t, 0))
  }

  ghost predicate AllFollow<B>(w: World<B>, end: nat, s: State<B>)
    requires Valid(w)
  {
    && |s.ranks| == w.ranks
    && (forall r :: 0 <= r < w.ranks ==> Follows(w, end, r, s.ranks[r]))
    && (forall t: nat, r: nat :: t <= end ==> BodyFollows(w, s, t, r))
    && (forall t: nat :: t <= end ==> AggregateFollows(w, s, t))
  }

  lemma RefStep<B>(w: World<B>, t: nat)
    requires Valid(w)
    ensures Ref(w, t + 1).theta == StepBy(w, Ref(w, t), t, 0) && Ref(w, t + 1).efs == NextBuffers(w, Ref(w, t), t)
  {
  }

  /** Uploading: the rank's vector is the lockstep run's. */
  lemma UploadFollows<B>(w: World<B>, end: nat, r: nat, k: Rank)
    requires Valid(w) && r < w.ranks && Sized(w, k) && Follows(w, end, r, k) && k.sent.None?
    ensures Follows(w, end, r, Uploaded(w, r, k))
    ensures k.done <= end ==> Acc(w, r, k) == AccAt(w, Ref(w, k.done), k.done, r)
  {
    if k.done <= end {
      var g := Ref(w, k.done);
      assert Acc(w, r, k) == AccAt(w, g, k.done, r);
      assert NextBuffers(w, g, k.done)[r] == Sub(AccAt(w, g, k.done, r), DenseAt(w, g, k.done, r));
    }
  }

  lemma SeenFollows<B>(w: World<B>, end: nat, s: State<B>, r: nat, t: nat, sent: Vec)
    requires Valid(w) && AllFollow(w, end, s) && AllUploaded(w, s, t) && t <= end && r < w.ranks
    requires sent == DenseAt(w, Ref(w, t), t, r)
    ensures Seen(w, s.peers, t, r, sent) == SeenBy(w, Ref(w, t), t, r)
  {
    var a, b := Seen(w, s.peers, t, r, sent), SeenBy(w, Ref(w, t), t, r);
    forall q | 0 <= q < w.ranks ensures a[q] == b[q] {
      assert BodyFollows(w, s, t, q);
    }
  }

  lemma AverageFollows<B>(w: World<B>, end: nat, s: State<B>, r: nat)
    requires Valid(w) && AllSized(w, s) && AllFollow(w, end, s) && Waiting(w, s, r) &&
             AllUploaded(w, s, s.ranks[r].done)
    requires s.ranks[r].done <= end
    ensures Average(w, s, r) == Mean.Mean(w.size, w.ranks, SeenBy(w, Ref(w, s.ranks[r].done), s.ranks[r].done, r))
  {
    var k := s.ranks[r];
    assert Follows(w, end, r, k);
    SeenFollows(w, end, s, r, k.done, k.sent.value);
  }

  lemma AggregatorAgrees<B>(w: World<B>, end: nat, t: nat, r: nat)
    requires Valid(w) && AgreeBefore(w, end) && t < end && r < w.ranks
    ensures StepBy(w, Ref(w, t), t, Aggregator(w, r)) == Ref(w, t + 1).theta
  {
    RefStep(w, t);
    if !w.star {
      assert EqualErrors(w, t);
      EqualErrorsStep(w, Ref(w, t), t, r);
    }
  }

  /** What a rank holds after a step, in terms of the lockstep run. */
  lemma CompletedRank<B>(w: World<B>, r: nat, k: Rank, avg: Vec, g: Global)
    requires Valid(w) && GlobalSized(w, g) && r < w.ranks && k.theta == g.theta && |avg| == w.size
    requires avg == Mean.Mean(w.size, w.ranks, SeenBy(w, g, k.done, Aggregator(w, r)))
    ensures Completed(w, k, avg).theta == StepBy(w, g, k.done, Aggregator(w, r))
  {
  }

  lemma FollowsInside<B>(w: World<B>, end: nat, r: nat, k: Rank, after: Rank)
    requires Valid(w) && r < w.ranks && k.sent.Some? && SentFollows(w, r, k) && k.done < end
    requires after.done == k.done + 1 && after.sent.None? && after.ef == k.ef && after.theta == Ref(w, k.done + 1).theta
    ensures Follows(w, end, r, after)
  {
    RefStep(w, k.done);
  }

  /** Completing a step with the average of the rank's aggregator. */
  lemma CompleteFollows<B>(w: World<B>, end: nat, r: nat, k: Rank, avg: Vec, after: Rank)
    requires Valid(w) && AgreeBefore(w, end) && r < w.ranks && Follows(w, end, r, k) && k.sent.Some? &&
             |k.theta| == |avg| == w.size
    requires k.done <= end ==> avg == Mean.Mean(w.size, w.ranks, SeenBy(w, Ref(w, k.done), k.done, Aggregator(w, r)))
    requires after == Completed(w, k, avg)
    ensures Follows(w, end, r, after)
  {
    if k.done < end {
      CompletedRank(w, r, k, avg, Ref(w, k.done));
      AggregatorAgrees(w, end, k.done, r);
      FollowsInside(w, end, r, k, after);
    } else if k.done == end {
      CompletedRank(w, r, k, avg, Ref(w, k.done));
    }
  }

  lemma RanksFollow<B>(w: World<B>, end: nat, s: State<B>, step: Step, r: nat)
    requires Valid(w) && AllSized(w, s) && Enabled(w, s, step) && AgreeBefore(w, end) && AllFollow(w, end, s) &&
             r < w.ranks
    ensures Follows(w, end, r, Apply(w, s, step).ranks[r])
  {
    var k := s.ranks[r];
    assert Follows(w, end, r, k);
    match step
    case Upload(q) =>
      if q == r {
        UploadFollows(w, end, r, k);
      }
    case Aggregate(q) =>
      if q == r {
        if k.done <= end {
          AverageFollows(w, end, s, r);
        }
        CompleteFollows(w, end, r, k, Average(w, s, r), Apply(w, s, step).ranks[r]);
      }
    case Collect =>
      if r == 0 {
        if k.done <= end {
          AverageFollows(w, end, s, 0);
        }
        CompleteFollows(w, end, 0, k, Average(w, s, 0), Apply(w, s, step).ranks[0]);
      }
    case Fetch(q) =>
      if q == r {
        assert k.done <= end ==> AggregateFollows(w, s, k.done);
        CompleteFollows(w, end, r, k, s.aggregates[k.done], Apply(w, s, step).ranks[r]);
      }
    case Halt(q) =>
  }

  lemma BodiesFollow<B>(w: World<B>, end: nat, s: State<B>, step: Step, t: nat, r: nat)
    requires Valid(w) && AllSized(w, s) && Enabled(w, s, step) && AllFollow(w, end, s) && t <= end
    ensures BodyFollows(w, Apply(w, s, step), t, r)
  {
    assert BodyFollows(w, s, t, r);
    if step.Upload? && r == step.r && t == s.ranks[r].done {
      assert Follows(w, end, r, s.ranks[r]);
      UploadFollows(w, end, r, s.ranks[r]);
    }
  }

  lemma AggregatesFollow<B>(w: World<B>, end: nat, s: State<B>, step: Step, t: nat)
    requires Valid(w) && AllSized(w, s) && Enabled(w, s, step) && AllFollow(w, end, s) && t <= end
    ensures AggregateFollows(w, Apply(w, s, step), t)
  {
    assert AggregateFollows(w, s, t);
    if step.Collect? && t == s.ranks[0].done {
      AverageFollows(w, end, s, 0);
    }
  }

  lemma StepFollows<B>(w: World<B>, end: nat, s: State<B>, step: Step)
    requires Valid(w) && AllSized(w, s) && Enabled(w, s, step) && AgreeBefore(w, end) && AllFollow(w, end, s)
    ensures AllFollow(w, end, Apply(w, s, step))
  {
    var s' := Apply(w, s, step);
    forall r | 0 <= r < w.ranks ensures Follows(w, end, r, s'.ranks[r]) {
      RanksFollow(w, end, s, step, r);
    }
    forall t: nat, r: nat | t <= end ensures BodyFollows(w, s', t, r) {
      BodiesFollow(w, end, s, step, t, r);
    }
    forall t: nat | t <= end ensures AggregateFollows(w, s', t) {
      AggregatesFollow(w, end, s, step, t);
    }
  }

  lemma StartFollows<B>(w: World<B>, end: nat)
    requires Valid(w)
    ensures AllFollow(w, end, Start(w))
  {
  }

  lemma {:induction false} RunFollows<B>(w: World<B>, end: nat, states: seq<State<B>>, steps: seq<Step>)
    requires ValidRun(w, states, steps) && AgreeBefore(w, end)
    ensures AllSized(w, states[|steps|]) && AllFollow(w, end, states[|steps|])
    decreases |steps|
  {
    if steps == [] {
      StartSized(w);
      StartFollows(w, end);
    } else {
      RunPrefix(w, states, steps);
      RunFollows(w, end, states[..|steps|], steps[..|steps| - 1]);
      var s, step := states[|steps| - 1], steps[|steps| - 1];
      ApplySized(w, s, step);
      StepFollows(w, end, s, step);
    }
  }

  /**
   Under every interleaving, a rank that has completed `t` steps holds the parameters of the
   lockstep run after `t` steps, so ranks that have completed equally many hold equal parameters.
   Star aggregation needs nothing of the wire; peer aggregation needs the wire to add the same to
   every rank's vector before step `t`, as it does when it adds nothing.
   */
  lemma Agreement<B>(w: World<B>, states: seq<State<B>>, steps: seq<Step>, r: nat)
    requires ValidRun(w, states, steps) && r < w.ranks && r < |states[|steps|].ranks|
    requires AgreeBefore(w, states[|steps|].ranks[r].done)
    ensures states[|steps|].ranks[r].theta == Ref(w, states[|steps|].ranks[r].done).theta
  {
    var k := states[|steps|].ranks[r];
    RunFollows(w, k.done, states, steps);
    assert Follows(w, k.done, r, k);
  }

  /**
   The condition is exact: where the ranks agreed before step `t`, two ranks that have just
   completed it hold equal parameters if and only if the wire added the same to both vectors.
   */
  lemma AgreementIff<B>(w: World<B>, states: seq<State<B>>, steps: seq<Step>, t: nat, a: nat, b: nat)
    requires ValidRun(w, states, steps) && !w.star && w.alpha != 0.0 && AgreeBefore(w, t)
    requires a < w.ranks && b < w.ranks && |states[|steps|].ranks| == w.ranks
    requires states[|steps|].ranks[a].done == states[|steps|].ranks[b].done == t + 1
    ensures states[|steps|].ranks[a].theta == states[|steps|].ranks[b].theta
       <==> WireError(w, Ref(w, t), t, a) == WireError(w, Ref(w, t), t, b)
  {
    RunFollows(w, t, states, steps);
    var s := states[|steps|];
    assert Follows(w, t, a, s.ranks[a]) && Follows(w, t, b, s.ranks[b]);
    StepsAgreeIff(w, Ref(w, t), t, a, b);
  }

  /** A wire that gives back exactly what is sent keeps the fleet in agreement for ever. */
  lemma ExactWireAgrees<B>(w: World<B>, end: nat)
    requires Valid(w) && forall t, r :: 0 <= t < end && 0 <= r < w.ranks ==>
             GotAt(w, Ref(w, t), t, r) == DenseAt(w, Ref(w, t), t, r)
    ensures AgreeBefore(w, end)
  {
    forall t | 0 <= t < end ensures EqualErrors(w, t) {
      forall r | 0 <= r < w.ranks ensures WireError(w, Ref(w, t), t, r) == Zeros(w.size) {
        assert GotAt(w, Ref(w, t), t, r) == DenseAt(w, Ref(w, t), t, r);
      }
    }
  }

  // ------------------------------------------------------------------------
  // A run in which two ranks part
  // ------------------------------------------------------------------------

  lemma ExtendRun<B>(w: World<B>, states: seq<State<B>>, steps: seq<Step>, step: Step)
    requires ValidRun(w, states, steps) && AllSized(w, states[|steps|]) && Enabled(w, states[|steps|], step)
    ensures ValidRun(w, states + [Apply(w, states[|steps|], step)], steps + [step])
    ensures AllSized(w, Apply(w, states[|steps|], step))
  {
    ApplySized(w, states[|steps|], step);
    var after, taken := states + [Apply(w, states[|steps|], step)], steps + [step];
    forall i | 0 <= i < |taken| ensures TakesAt(w, after, taken, i) {
      if i < |steps| {
        assert TakesAt(w, states, steps, i);
      }
    }
  }

  /** Two ranks upload and then average, one after the other. */
  lemma TwoRankRun<B>(w: World<B>) returns (states: seq<State<B>>, steps: seq<Step>)
    requires Valid(w) && !w.star && w.ranks == 2
    ensures ValidRun(w, states, steps) && |states[|steps|].ranks| == 2
    ensures states[|steps|].ranks[0].done == states[|steps|].ranks[1].done == 1
  {
    var s0 := Start(w);
    StartSized(w);
    ExtendRun(w, [s0], [], Upload(0));
    var s1 := Apply(w, s0, Upload(0));
    ExtendRun(w, [s0] + [s1], [] + [Upload(0)], Upload(1));
    var s2 := Apply(w, s1, Upload(1));
    assert AllUploaded(w, s2, 0);
    ExtendRun(w, [s0] + [s1] + [s2], [] + [Upload(0)] + [Upload(1)], Aggregate(0));
    var s3 := Apply(w, s2, Aggregate(0));
    ExtendRun(w, [s0] + [s1] + [s2] + [s3], [] + [Upload(0)] + [Upload(1)] + [Aggregate(0)], Aggregate(1));
    states := [s0] + [s1] + [s2] + [s3] + [Apply(w, s3, Aggregate(1))];
    steps := [] + [Upload(0)] + [Upload(1)] + [Aggregate(0)] + [Aggregate(1)];
  }

  /** Two ranks to whose first vectors the wire adds different amounts part in their first step. */
  lemma TwoRanksPart<B>(w: World<B>) returns (states: seq<State<B>>, steps: seq<Step>)
    requires Valid(w) && !w.star && w.ranks == 2 && w.alpha != 0.0
    requires WireError(w, Ref(w, 0), 0, 0) != WireError(w, Ref(w, 0), 0, 1)
    ensures ValidRun(w, states, steps) && |states[|steps|].ranks| == 2
    ensures states[|steps|].ranks[0].theta != states[|steps|].ranks[1].theta
  {
    states, steps := TwoRankRun(w);
    AgreementIff(w, states, steps, 0, 0, 1);
  }
}
