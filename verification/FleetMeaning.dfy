/**
 What an outer step does to the parameters, entry by entry and without the operations that do it: an exact
 fleet averages what its ranks have trained, and any fleet loses nothing of it.
 */
module FleetMeaning {
  import opened Common
  import opened Reals
  import opened Mean
  import EF = ErrorFeedback
  import opened Fleet
  import opened FleetAgreement

  // ------------------------------------------------------------------------
  // Sums over the ranks
  // ------------------------------------------------------------------------

  /** The sum of the entries at place `i`. */
  function Column(vs: seq<Vec>, i: nat): real
    requires forall k :: 0 <= k < |vs| ==> i < |vs[k]|
  {
    if vs == [] then 0.0 else Column(vs[..|vs| - 1], i) + vs[|vs| - 1][i]
  }

  lemma QuotientTimes(x: real, n: nat)
    requires n >= 1
    ensures x / n as real * n as real == x
  {
  }

  lemma TimesSum(a: real, b: real, c: real)
    ensures (a + b) * c == a * c + b * c
  {
  }

  /** An entry of the average, times the number of ranks, is the sum of the entries. */
  lemma {:induction false} MeanColumn(n: nat, ranks: nat, vs: seq<Vec>, i: nat)
    requires ranks >= 1 && SameSize(n, vs) && i < n
    ensures Mean.Mean(n, ranks, vs)[i] * ranks as real == Column(vs, i)
    decreases |vs|
  {
    if vs != [] {
      var k := |vs| - 1;
      MeanColumn(n, ranks, vs[..k], i);
      QuotientTimes(vs[k][i], ranks);
      TimesSum(Mean.Mean(n, ranks, vs[..k])[i], vs[k][i] / ranks as real, ranks as real);
    }
  }

  // ------------------------------------------------------------------------
  // One step of one rank
  // ------------------------------------------------------------------------

  /** What rank `r` averages: its own vector and the others as decoded. */
  ghost predicate Averages<B>(w: World<B>, s: State<B>, r: nat, vs: seq<Vec>)
    requires Waiting(w, s, r)
  {
    && |vs| == w.ranks && SameSize(w.size, vs) && vs[r] == s.ranks[r].sent.value
    && forall q :: 0 <= q < w.ranks && q != r ==>
         (s.ranks[r].done, q) in s.peers && vs[q] == w.unwire(s.peers[(s.ranks[r].done, q)])
  }

  lemma MovedEntry<B>(w: World<B>, theta: Vec, avg: Vec, i: nat, c: real)
    requires w.ranks >= 1 && |theta| == |avg| && i < |theta| && avg[i] == c / w.ranks as real
    ensures Moved(w, theta, avg)[i] + w.alpha * (c / w.ranks as real) == theta[i]
  {
  }

  lemma AverageEntry<B>(w: World<B>, s: State<B>, r: nat, vs: seq<Vec>, i: nat)
    requires Valid(w) && AllSized(w, s) && Waiting(w, s, r) && Averages(w, s, r, vs) && i < w.size
    requires AllUploaded(w, s, s.ranks[r].done)
    ensures Average(w, s, r)[i] == Column(vs, i) / w.ranks as real
  {
    AverageIs(w, s, r, vs);
    MeanColumn(w.size, w.ranks, vs, i);
    SameProduct(Mean.Mean(w.size, w.ranks, vs)[i], Column(vs, i), w.ranks);
  }

  lemma AverageIs<B>(w: World<B>, s: State<B>, r: nat, vs: seq<Vec>)
    requires Valid(w) && AllSized(w, s) && Waiting(w, s, r) && Averages(w, s, r, vs)
    requires AllUploaded(w, s, s.ranks[r].done)
    ensures Average(w, s, r) == Mean.Mean(w.size, w.ranks, vs)
  {
    var k := s.ranks[r];
    assert Seen(w, s.peers, k.done, r, k.sent.value) == vs;
  }

  /**
   A rank's own aggregation: the new entry, and alpha times the average of what it averages, make the old one.
   The average is a sum over the number of ranks.
   */
  lemma AggregationMoves<B>(w: World<B>, s: State<B>, r: nat, vs: seq<Vec>, i: nat, step: Step)
    requires Valid(w) && AllSized(w, s) && Waiting(w, s, r) && Averages(w, s, r, vs) && i < w.size
    requires Enabled(w, s, step) && (step == Aggregate(r) || (step == Collect && r == 0))
    ensures Apply(w, s, step).ranks[r].theta[i] + w.alpha * (Column(vs, i) / w.ranks as real) == s.ranks[r].theta[i]
  {
    AverageEntry(w, s, r, vs, i);
    MovedEntry(w, s.ranks[r].theta, Average(w, s, r), i, Column(vs, i));
  }

  /** What rank 0 publishes is that average. */
  lemma CollectPublishes<B>(w: World<B>, s: State<B>, vs: seq<Vec>, i: nat)
    requires Valid(w) && AllSized(w, s) && Enabled(w, s, Collect) && Averages(w, s, 0, vs) && i < w.size
    ensures var s', t := Apply(w, s, Collect), s.ranks[0].done;
            t in s'.aggregates && |s'.aggregates[t]| == w.size &&
            s'.aggregates[t][i] == Column(vs, i) / w.ranks as real
  {
    AverageEntry(w, s, 0, vs, i);
  }

  lemma SameProduct(x: real, y: real, n: nat)
    requires n >= 1 && x * n as real == y
    ensures x == y / n as real
  {
  }

  /** A rank that reads the average moves by alpha times it. */
  lemma FetchMoves<B>(w: World<B>, s: State<B>, r: nat, i: nat)
    requires Valid(w) && AllSized(w, s) && Enabled(w, s, Fetch(r)) && i < w.size
    ensures Apply(w, s, Fetch(r)).ranks[r].theta[i] + w.alpha * s.aggregates[s.ranks[r].done][i] == s.ranks[r].theta[i]
  {
  }

  // ------------------------------------------------------------------------
  // Nothing is lost
  // ------------------------------------------------------------------------

  /** What training makes of the parameters at each rank. */
  function TrainedAt<B>(w: World<B>, t: nat, theta: Vec): (vs: seq<Vec>)
    requires Valid(w) && |theta| == w.size
    ensures |vs| == w.ranks && SameSize(w.size, vs)
  {
    assert forall r :: |w.train(r, t, theta)| == |theta|;
    seq(w.ranks, r requires 0 <= r < w.ranks => w.train(r, t, theta))
  }

  /** The wire gives every rank's vector as its sender takes it for sent. */
  ghost predicate ExactWire<B>(w: World<B>)
  {
    forall x {:trigger w.wire(x)} :: |x| == w.size ==> w.unwire(w.wire(x)) == w.dense(x)
  }

  function Denses<B>(w: World<B>, g: Global, t: nat): (vs: seq<Vec>)
    requires Valid(w) && GlobalSized(w, g)
    ensures |vs| == w.ranks && SameSize(w.size, vs)
  {
    seq(w.ranks, r requires 0 <= r < w.ranks => DenseAt(w, g, t, r))
  }

  lemma ExactSeen<B>(w: World<B>, g: Global, t: nat)
    requires Valid(w) && ExactWire(w) && GlobalSized(w, g)
    ensures SeenBy(w, g, t, 0) == Denses(w, g, t)
  {
    var a, b := SeenBy(w, g, t, 0), Denses(w, g, t);
    forall r | 0 <= r < w.ranks ensures a[r] == b[r] {
      assert |AccAt(w, g, t, r)| == w.size;
      assert r != 0 ==> a[r] == w.unwire(w.wire(AccAt(w, g, t, r)));
    }
  }

  /** At one rank: the new buffer and what was sent make the decayed buffer and the difference. */
  predicate Balanced(beta: real, x: real, after: Vec, sent: Vec, before: Vec, trained: Vec, i: nat)
    requires i < |after| && i < |sent| && i < |before| && i < |trained|
  {
    after[i] + sent[i] == beta * before[i] + (x - trained[i])
  }

  lemma AccEntry<B>(w: World<B>, g: Global, t: nat, r: nat, i: nat)
    requires Valid(w) && GlobalSized(w, g) && r < w.ranks && i < w.size
    ensures AccAt(w, g, t, r)[i] == w.beta * g.efs[r][i] + (g.theta[i] - w.train(r, t, g.theta)[i])
  {
  }

  lemma RankBalances<B>(w: World<B>, g: Global, t: nat, r: nat, i: nat)
    requires Valid(w) && GlobalSized(w, g) && r < w.ranks && i < w.size
    ensures Balanced(w.beta, g.theta[i], NextBuffers(w, g, t)[r], Denses(w, g, t)[r], g.efs[r],
                     TrainedAt(w, t, g.theta)[r], i)
  {
    AccEntry(w, g, t, r, i);
    assert NextBuffers(w, g, t)[r] == Sub(AccAt(w, g, t, r), DenseAt(w, g, t, r));
  }

  predicate Wide(vs: seq<Vec>, i: nat) { forall k :: 0 <= k < |vs| ==> i < |vs[k]| }

  lemma {:induction false} ColumnsBalance(beta: real, x: real, after: seq<Vec>, sent: seq<Vec>, before: seq<Vec>,
                                          trained: seq<Vec>, i: nat)
    requires |after| == |sent| == |before| == |trained| && Wide(after, i) && Wide(sent, i) && Wide(before, i)
    requires Wide(trained, i)
    requires forall r :: 0 <= r < |sent| ==> Balanced(beta, x, after[r], sent[r], before[r], trained[r], i)
    ensures Column(after, i) + Column(sent, i) ==
            beta * Column(before, i) + (|sent| as real * x - Column(trained, i))
    decreases |sent|
  {
    if sent == [] {
      assert beta * 0.0 == 0.0;
    } else {
      var r := |sent| - 1;
      ColumnsBalance(beta, x, after[..r], sent[..r], before[..r], trained[..r], i);
      assert Balanced(beta, x, after[r], sent[r], before[r], trained[r], i);
      OneMore(beta, Column(before[..r], i), before[r][i], r as real, x);
    }
  }

  lemma OneMore(beta: real, b: real, c: real, n: real, x: real)
    ensures beta * (b + c) == beta * b + beta * c && (n + 1.0) * x == n * x + x
  {
  }

  /** The entry `x` moves to `x'` by alpha times the average of what was sent. */
  predicate Shifts(n: real, alpha: real, x: real, x': real, s: real) { n * x' == n * x - alpha * s }

  lemma ThetaMoves<B>(w: World<B>, g: Global, t: nat, i: nat)
    requires Valid(w) && ExactWire(w) && GlobalSized(w, g) && i < w.size
    ensures Shifts(w.ranks as real, w.alpha, g.theta[i], StepBy(w, g, t, 0)[i], Column(Denses(w, g, t), i))
  {
    ExactSeen(w, g, t);
    var sent := Denses(w, g, t);
    MeanColumn(w.size, w.ranks, sent, i);
    Spread(w.ranks as real, g.theta[i], w.alpha, Mean.Mean(w.size, w.ranks, sent)[i], Column(sent, i));
  }

  lemma Spread(n: real, x: real, a: real, m: real, c: real)
    requires m * n == c
    ensures n * (x - a * m) == n * x - a * c
  {
    assert n * (a * m) == a * (m * n);
  }

  /** What a step trains, at place `i`, summed over the ranks. */
  function TrainedOff<B>(w: World<B>, g: Global, t: nat, i: nat): real
    requires Valid(w) && GlobalSized(w, g) && i < w.size
  {
    w.ranks as real * g.theta[i] - Column(TrainedAt(w, t, g.theta), i)
  }

  /** The buffers' sum `e` becomes `e'`: decayed, with what was trained, less what was sent. */
  predicate Drains(beta: real, e: real, d: real, e': real, s: real) { e' + s == beta * e + d }

  lemma BuffersMove<B>(w: World<B>, g: Global, t: nat, i: nat)
    requires Valid(w) && GlobalSized(w, g) && i < w.size
    ensures Drains(w.beta, Column(g.efs, i), TrainedOff(w, g, t, i), Column(NextBuffers(w, g, t), i),
                   Column(Denses(w, g, t), i))
  {
    forall r | 0 <= r < w.ranks
      ensures Balanced(w.beta, g.theta[i], NextBuffers(w, g, t)[r], Denses(w, g, t)[r], g.efs[r],
                       TrainedAt(w, t, g.theta)[r], i)
    {
      RankBalances(w, g, t, r, i);
    }
    ColumnsBalance(w.beta, g.theta[i], NextBuffers(w, g, t), Denses(w, g, t), g.efs, TrainedAt(w, t, g.theta), i);
  }

  function After<B>(w: World<B>, g: Global, t: nat): (g': Global)
    requires Valid(w) && GlobalSized(w, g)
    ensures GlobalSized(w, g')
  {
    Global(StepBy(w, g, t, 0), NextBuffers(w, g, t))
  }

  /**
   How an entry `x` of the parameters and the sum `e` of the ranks' buffers move together: by alpha times what
   training moved, and by what the decay takes off the buffers.
   */
  predicate Conserves(n: real, alpha: real, beta: real, x: real, e: real, d: real, x': real, e': real)
  {
    n * x' - alpha * e' == n * x - alpha * (beta * e) - alpha * d
  }

  lemma Balance(n: real, a: real, b: real, x: real, e: real, d: real, x': real, e': real, s: real)
    requires Drains(b, e, d, e', s) && Shifts(n, a, x, x', s)
    ensures Conserves(n, a, b, x, e, d, x', e')
  {
    assert a * (e' + s) == a * (b * e + d);
  }

  /** One outer step, whatever the compressor, the decay and the step size. */
  lemma StepConserves<B>(w: World<B>, g: Global, t: nat, i: nat, e: real, d: real, x': real, e': real)
    requires Valid(w) && ExactWire(w) && GlobalSized(w, g) && i < w.size
    requires e == Column(g.efs, i) && d == TrainedOff(w, g, t, i)
    requires x' == StepBy(w, g, t, 0)[i] && e' == Column(NextBuffers(w, g, t), i)
    ensures Conserves(w.ranks as real, w.alpha, w.beta, g.theta[i], e, d, x', e')
  {
    var s := Column(Denses(w, g, t), i);
    ThetaMoves(w, g, t, i);
    BuffersMove(w, g, t, i);
    Balance(w.ranks as real, w.alpha, w.beta, g.theta[i], e, d, x', e', s);
  }

  /** What training has moved, at place `i`, summed over the ranks and the steps before `t`. */
  function Moves<B>(w: World<B>, t: nat, i: nat): real
    requires Valid(w) && i < w.size
  {
    if t == 0 then 0.0 else Moves(w, t - 1, i) + TrainedOff(w, Ref(w, t - 1), t - 1, i)
  }

  lemma {:induction false} ZeroColumn(n: nat, vs: seq<Vec>, i: nat)
    requires i < n && SameSize(n, vs) && forall k :: 0 <= k < |vs| ==> vs[k] == Zeros(n)
    ensures Column(vs, i) == 0.0
    decreases |vs|
  {
    if vs != [] {
      ZeroColumn(n, vs[..|vs| - 1], i);
    }
  }

  lemma RefAfter<B>(w: World<B>, t: nat)
    requires Valid(w)
    ensures Ref(w, t + 1) == After(w, Ref(w, t), t)
  {
  }

  /** Without decay: the entry, the buffers and what was trained, against the initial entry. */
  predicate Kept(n: real, alpha: real, init: real, x: real, e: real, m: real)
  {
    n * x - alpha * e == n * init - alpha * m
  }

  lemma Telescope(n: real, alpha: real, init: real, x: real, e: real, m: real, d: real, x': real, e': real)
    requires Kept(n, alpha, init, x, e, m) && Conserves(n, alpha, 1.0, x, e, d, x', e')
    ensures Kept(n, alpha, init, x', e', m + d)
  {
  }

  /** The entry, the buffers and what is trained in the steps of a run. */
  datatype Course = Course(x: nat -> real, e: nat -> real, d: nat -> real, m: nat -> real)

  ghost predicate ConservedAt(c: Course, n: real, alpha: real, t: nat)
  {
    Conserves(n, alpha, 1.0, c.x(t), c.e(t), c.d(t), c.x(t + 1), c.e(t + 1)) && c.m(t + 1) == c.m(t) + c.d(t)
  }

  lemma {:induction false} CourseKept(c: Course, n: real, alpha: real, t: nat)
    requires c.e(0) == 0.0 && c.m(0) == 0.0 && forall k: nat :: ConservedAt(c, n, alpha, k)
    ensures Kept(n, alpha, c.x(0), c.x(t), c.e(t), c.m(t))
    decreases t
  {
    if t > 0 {
      CourseKept(c, n, alpha, t - 1);
      assert ConservedAt(c, n, alpha, t - 1);
      Telescope(n, alpha, c.x(0), c.x(t - 1), c.e(t - 1), c.m(t - 1), c.d(t - 1), c.x(t), c.e(t));
    }
  }

  /** The course of place `i` in the lockstep run. */
  ghost function CourseOf<B>(w: World<B>, i: nat): Course
    requires Valid(w) && i < w.size
  {
    Course((t: nat) => Ref(w, t).theta[i], (t: nat) => Column(Ref(w, t).efs, i),
           (t: nat) => TrainedOff(w, Ref(w, t), t, i), (t: nat) => Moves(w, t, i))
  }

  lemma CourseConserved<B>(w: World<B>, i: nat, t: nat)
    requires Valid(w) && ExactWire(w) && w.beta == 1.0 && i < w.size
    ensures ConservedAt(CourseOf(w, i), w.ranks as real, w.alpha, t)
  {
    var n := w.ranks as real;
    RefConserves(w, t, i, n);
    CourseAt(CourseOf(w, i), n, w.alpha, t, Ref(w, t).theta[i], Column(Ref(w, t).efs, i),
             TrainedOff(w, Ref(w, t), t, i), Ref(w, t + 1).theta[i], Column(Ref(w, t + 1).efs, i));
  }

  lemma CourseAt(c: Course, n: real, alpha: real, t: nat, x: real, e: real, d: real, x': real, e': real)
    requires c.x(t) == x && c.e(t) == e && c.d(t) == d && c.x(t + 1) == x' && c.e(t + 1) == e'
    requires c.m(t + 1) == c.m(t) + d && Conserves(n, alpha, 1.0, x, e, d, x', e')
    ensures ConservedAt(c, n, alpha, t)
  {
  }

  lemma RefConserves<B>(w: World<B>, t: nat, i: nat, n: real)
    requires Valid(w) && ExactWire(w) && i < w.size && n == w.ranks as real
    ensures Conserves(n, w.alpha, w.beta, Ref(w, t).theta[i], Column(Ref(w, t).efs, i), TrainedOff(w, Ref(w, t), t, i),
                      Ref(w, t + 1).theta[i], Column(Ref(w, t + 1).efs, i))
  {
    var g, g' := Ref(w, t), Ref(w, t + 1);
    RefAfter(w, t);
    StepConserves(w, g, t, i, Column(g.efs, i), TrainedOff(w, g, t, i), g'.theta[i], Column(g'.efs, i));
  }

  /** Without decay the parameters, less what is still in the buffers, have moved by all that was trained. */
  lemma NothingLost<B>(w: World<B>, t: nat, i: nat)
    requires Valid(w) && ExactWire(w) && w.beta == 1.0 && i < w.size
    ensures Kept(w.ranks as real, w.alpha, w.init[i], Ref(w, t).theta[i], Column(Ref(w, t).efs, i), Moves(w, t, i))
  {
    var c := CourseOf(w, i);
    ZeroColumn(w.size, Ref(w, 0).efs, i);
    var n := w.ranks as real;
    forall k: nat ensures ConservedAt(c, n, w.alpha, k) {
      CourseConserved(w, i, k);
    }
    CourseKept(c, n, w.alpha, t);
  }

  lemma ExactAgrees<B>(w: World<B>, end: nat)
    requires Valid(w) && ExactWire(w)
    ensures AgreeBefore(w, end)
  {
    forall t, r | 0 <= t < end && 0 <= r < w.ranks ensures GotAt(w, Ref(w, t), t, r) == DenseAt(w, Ref(w, t), t, r) {
      assert |AccAt(w, Ref(w, t), t, r)| == w.size;
    }
    ExactWireAgrees(w, end);
  }

  // ------------------------------------------------------------------------
  // An exact fleet averages
  // ------------------------------------------------------------------------

  /** Training on every rank, and then the average of what the ranks have made: no differences and no steps. */
  function Averaged<B>(w: World<B>, t: nat): (v: Vec)
    requires Valid(w)
    ensures |v| == w.size
  {
    if t == 0 then w.init
    else
      var vs := TrainedAt(w, t - 1, Averaged(w, t - 1));
      seq(w.size, i requires 0 <= i < w.size => Column(vs, i) / w.ranks as real)
  }

  /** Compressor and wire are exact, and the step size is one. */
  ghost predicate Exact<B>(w: World<B>)
  {
    w.alpha == 1.0 && ExactWire(w) && forall x {:trigger w.dense(x)} :: |x| == w.size ==> w.dense(x) == x
  }

  ghost predicate NothingBuffered<B>(w: World<B>, g: Global)
  {
    GlobalSized(w, g) && forall r :: 0 <= r < w.ranks ==> g.efs[r] == Zeros(w.size)
  }

  lemma ExactBuffers<B>(w: World<B>, g: Global, t: nat)
    requires Valid(w) && Exact(w) && GlobalSized(w, g)
    ensures NothingBuffered(w, After(w, g, t))
  {
    forall r | 0 <= r < w.ranks ensures NextBuffers(w, g, t)[r] == Zeros(w.size) {
      var a := AccAt(w, g, t, r);
      assert w.dense(a) == a;
    }
  }

  lemma OnlyTrained(n: real, beta: real, x: real, c: real, d: real, x': real)
    requires d == n * x - c && Conserves(n, 1.0, beta, x, 0.0, d, x', 0.0)
    ensures x' * n == c
  {
    assert beta * 0.0 == 0.0;
  }

  /** With empty buffers before and after, the parameters alone are conserved. */
  lemma ExactConserves<B>(w: World<B>, g: Global, t: nat, i: nat, d: real, x': real)
    requires Valid(w) && Exact(w) && NothingBuffered(w, g) && i < w.size
    requires d == TrainedOff(w, g, t, i) && x' == StepBy(w, g, t, 0)[i]
    ensures Conserves(w.ranks as real, 1.0, w.beta, g.theta[i], 0.0, d, x', 0.0)
  {
    ExactBuffers(w, g, t);
    ZeroColumn(w.size, g.efs, i);
    ZeroColumn(w.size, NextBuffers(w, g, t), i);
    StepConserves(w, g, t, i, 0.0, d, x', 0.0);
  }

  lemma ExactStep<B>(w: World<B>, g: Global, t: nat, i: nat, c: real, x': real)
    requires Valid(w) && Exact(w) && NothingBuffered(w, g) && i < w.size
    requires c == Column(TrainedAt(w, t, g.theta), i) && x' == StepBy(w, g, t, 0)[i]
    ensures x' == c / w.ranks as real
  {
    var d := TrainedOff(w, g, t, i);
    ExactConserves(w, g, t, i, d, x');
    OnlyTrained(w.ranks as real, w.beta, g.theta[i], c, d, x');
    SameProduct(x', c, w.ranks);
  }

  lemma AveragedStep<B>(w: World<B>, g: Global, t: nat)
    requires Valid(w) && Exact(w) && NothingBuffered(w, g) && g.theta == Averaged(w, t)
    ensures StepBy(w, g, t, 0) == Averaged(w, t + 1)
  {
    var a, b := StepBy(w, g, t, 0), Averaged(w, t + 1);
    forall i | 0 <= i < w.size ensures a[i] == b[i] {
      ExactStep(w, g, t, i, Column(TrainedAt(w, t, g.theta), i), a[i]);
    }
  }

  ghost predicate ExactAt<B>(w: World<B>, t: nat)
    requires Valid(w)
  {
    Ref(w, t).theta == Averaged(w, t) && NothingBuffered(w, Ref(w, t))
  }

  lemma ExactNext<B>(w: World<B>, t: nat)
    requires Valid(w) && Exact(w) && ExactAt(w, t)
    ensures ExactAt(w, t + 1)
  {
    RefAfter(w, t);
    ExactBuffers(w, Ref(w, t), t);
    AveragedStep(w, Ref(w, t), t);
  }

  lemma ExactAtStart<B>(w: World<B>)
    requires Valid(w)
    ensures ExactAt(w, 0)
  {
  }

  lemma {:induction false} ExactFollows<B>(w: World<B>, t: nat)
    requires Valid(w) && Exact(w)
    ensures ExactAt(w, t)
    decreases t
  {
    if t == 0 {
      ExactAtStart(w);
    } else {
      ExactFollows(w, t - 1);
      ExactNext(w, t - 1);
    }
  }

  /**
   With an exact compressor and wire and a step size of one, under every interleaving, a rank that has completed
   `t` steps holds the parameters of `t` rounds of training and averaging.
   */
  lemma ExactFleetAverages<B>(w: World<B>, states: seq<State<B>>, steps: seq<Step>, r: nat)
    requires ValidRun(w, states, steps) && Exact(w) && r < w.ranks && r < |states[|steps|].ranks|
    ensures states[|steps|].ranks[r].theta == Averaged(w, states[|steps|].ranks[r].done)
  {
    ExactAgrees(w, states[|steps|].ranks[r].done);
    Agreement(w, states, steps, r);
    ExactFollows(w, states[|steps|].ranks[r].done);
  }

  /** Alone, a rank holds what it has trained. */
  lemma AloneTrains<B>(w: World<B>, t: nat)
    requires Valid(w) && w.ranks == 1
    ensures Averaged(w, t + 1) == w.train(0, t, Averaged(w, t))
  {
    var theta := Averaged(w, t);
    var vs := TrainedAt(w, t, theta);
    forall i | 0 <= i < w.size ensures Averaged(w, t + 1)[i] == w.train(0, t, theta)[i] {
      assert vs == [vs[0]] && vs[..0] == [];
      assert Column(vs, i) == vs[0][i];
    }
  }

  /**
   Whatever the compressor and the step size, without decay and over an exact wire: under every interleaving, a
   rank's parameters are the initial ones, less alpha times all that the ranks have trained on average, plus
   what the buffers hold back.
   */
  lemma FleetLosesNothing<B>(w: World<B>, states: seq<State<B>>, steps: seq<Step>, r: nat, i: nat)
    requires ValidRun(w, states, steps) && ExactWire(w) && w.beta == 1.0
    requires r < w.ranks && r < |states[|steps|].ranks| && i < w.size
    ensures var k := states[|steps|].ranks[r];
            && |k.theta| == w.size
            && Kept(w.ranks as real, w.alpha, w.init[i], k.theta[i], Column(Ref(w, k.done).efs, i), Moves(w, k.done, i))
  {
    var k := states[|steps|].ranks[r];
    ExactAgrees(w, k.done);
    Agreement(w, states, steps, r);
    NothingLost(w, k.done, i);
  }
}
