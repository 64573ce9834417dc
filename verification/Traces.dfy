/**
 What evaluation means, said without the table and without recursion: a sequence of results, one per operation,
 each of which the operation yields on the values its references stand for.
 */
module Traces {
  import opened Common
  import opened Graphs
  import opened Evaluator

  /** What a reference stands for, given the results of all operations. */
  function Value<V>(env: Env<V>, results: seq<OpResult<V>>, ref: Ref<V>): Option<V>
  {
    match ref
    case InputRef(name) => if name in env.inputs then Some(env.inputs[name]) else None
    case ParamRef(name) => if name in env.params then Some(env.params[name]) else None
    case ConstRef(v) => Some(v)
    case BlobRef(uri, _, _) => if uri in env.blobs then Some(env.blobs[uri]) else None
    case OpRef(id, idx) => if 0 <= id < |results| then Output(results[id], idx) else None
  }

  /** Output `idx` of a result; a negative index counts from the end. */
  function Output<V>(r: OpResult<V>, idx: int): Option<V>
  {
    match r
    case Single(v) => if idx == 0 then Some(v) else None
    case Multi(vs) =>
      if 0 <= idx < |vs| then Some(vs[idx]) else if -|vs| <= idx < 0 then Some(vs[|vs| + idx]) else None
  }

  /** A positional argument: what it stands for, as a tensor. */
  function Argument<V>(env: Env<V>, results: seq<OpResult<V>>, ref: Ref<V>): Option<V>
  {
    match Value(env, results, ref)
    case None => None
    case Some(v) => (match env.promote(v) case Ok(t) => Some(t) case Err(_) => None)
  }

  /** A keyword argument: a plain value, or what a reference stands for, not made a tensor. */
  function Keyword<V>(env: Env<V>, results: seq<OpResult<V>>, k: Kwarg<V>): Option<V>
  {
    match k
    case Literal(v) => Some(v)
    case Reference(ref) => Value(env, results, ref)
  }

  /** The operation yields `r` on all its arguments, in order, and all its keywords under their names. */
  predicate Yields<V(==)>(env: Env<V>, results: seq<OpResult<V>>, op: Op<V>, r: OpResult<V>)
  {
    && (forall k :: 0 <= k < |op.args| ==> Argument(env, results, op.args[k]).Some?)
    && (forall k :: 0 <= k < |op.kwargs| ==> Keyword(env, results, op.kwargs[k].1).Some?)
    && env.run(op.op,
         seq(|op.args|, k requires 0 <= k < |op.args| => Argument(env, results, op.args[k]).value),
         seq(|op.kwargs|, k requires 0 <= k < |op.kwargs| =>
           (op.kwargs[k].0, Keyword(env, results, op.kwargs[k].1).value))) == Ok(r)
  }

  predicate IsTrace<V(==)>(env: Env<V>, g: Graph<V>, results: seq<OpResult<V>>)
  {
    |results| == |g.ops| && forall i :: 0 <= i < |g.ops| ==> Yields(env, results, g.ops[i], results[i])
  }

  /** No later output has the same name. */
  predicate LastOfName<V>(outputs: seq<(string, Ref<V>)>, i: nat)
    requires i < |outputs|
  {
    forall j :: i < j < |outputs| ==> outputs[j].0 != outputs[i].0
  }

  /** The dictionary has the names of the outputs, each with what the last output of that name stands for. */
  predicate Returns<V(==)>(env: Env<V>, results: seq<OpResult<V>>, outputs: seq<(string, Ref<V>)>,
                           out: map<string, V>)
  {
    && (forall i :: 0 <= i < |outputs| ==> Argument(env, results, outputs[i].1).Some? && outputs[i].0 in out)
    && (forall i :: 0 <= i < |outputs| && LastOfName(outputs, i) ==>
          out[outputs[i].0] == Argument(env, results, outputs[i].1).value)
    && (forall n :: n in out ==> exists i :: 0 <= i < |outputs| && outputs[i].0 == n)
  }

  // ------------------------------------------------------------------------
  // References
  // ------------------------------------------------------------------------

  /** The first `n` results are what their operations mean. */
  ghost predicate Agree<V>(env: Env<V>, g: Graph<V>, results: seq<OpResult<V>>, n: nat)
    requires Ordered(g)
  {
    && |results| == |g.ops| && n <= |g.ops|
    && forall j :: 0 <= j < n ==> DenoteOp(env, g, j) == Ok(results[j])
  }

  lemma ValueDenotes<V>(env: Env<V>, g: Graph<V>, results: seq<OpResult<V>>, n: nat, ref: Ref<V>)
    requires Ordered(g) && Agree(env, g, results, n) && Below(ref, n)
    ensures var d, v := DenoteRef(env, g, n, ref), Value(env, results, ref);
            (d.Ok? <==> v.Some?) && (d.Ok? ==> d.value == v.value)
  {
  }

  /** A list of values resolved one by one. */
  lemma {:induction false} ArgumentsDenote<V>(env: Env<V>, g: Graph<V>, results: seq<OpResult<V>>, n: nat,
                                              refs: seq<Ref<V>>)
    requires Ordered(g) && Agree(env, g, results, n) && AllBelow(refs, n)
    ensures var d := DenoteRefs(env, g, n, refs);
            && (d.Ok? <==> forall k :: 0 <= k < |refs| ==> Value(env, results, refs[k]).Some?)
            && (d.Ok? ==> |d.value| == |refs|)
            && (d.Ok? ==> forall k :: 0 <= k < |refs| ==> Value(env, results, refs[k]) == Some(d.value[k]))
    decreases |refs|
  {
    if refs != [] {
      var m := |refs| - 1;
      ArgumentsDenote(env, g, results, n, refs[..m]);
      ValueDenotes(env, g, results, n, refs[m]);
      assert forall k :: 0 <= k < m ==> refs[..m][k] == refs[k];
    }
  }

  /** The keyword is bound to the value under its own name. */
  predicate Bound<V(==)>(env: Env<V>, results: seq<OpResult<V>>, k: (string, Kwarg<V>), v: (string, V))
  {
    v.0 == k.0 && Keyword(env, results, k.1) == Some(v.1)
  }

  lemma {:induction false} KeywordsDenote<V>(env: Env<V>, g: Graph<V>, results: seq<OpResult<V>>, n: nat,
                                             ks: seq<(string, Kwarg<V>)>)
    requires Ordered(g) && Agree(env, g, results, n) && KwargsBelow(ks, n)
    ensures var d := DenoteKwargs(env, g, n, ks);
            && (d.Ok? <==> forall k :: 0 <= k < |ks| ==> Keyword(env, results, ks[k].1).Some?)
            && (d.Ok? ==> |d.value| == |ks|)
            && (d.Ok? ==> forall k :: 0 <= k < |ks| ==> Bound(env, results, ks[k], d.value[k]))
    decreases |ks|
  {
    if ks != [] {
      var m := |ks| - 1;
      KeywordsDenote(env, g, results, n, ks[..m]);
      assert KwargBelow(ks[m].1, n);
      if ks[m].1.Reference? {
        ValueDenotes(env, g, results, n, ks[m].1.ref);
      }
      assert forall k :: 0 <= k < m ==> ks[..m][k] == ks[k];
    }
  }

  lemma {:induction false} Promoted<V>(env: Env<V>, vs: seq<V>)
    ensures var p := PromoteAll(env, vs);
            && (p.Ok? <==> forall k :: 0 <= k < |vs| ==> env.promote(vs[k]).Ok?)
            && (p.Ok? ==> |p.value| == |vs| && forall k :: 0 <= k < |vs| ==> env.promote(vs[k]) == Ok(p.value[k]))
    decreases |vs|
  {
    if vs != [] {
      var m := |vs| - 1;
      Promoted(env, vs[..m]);
      assert forall k :: 0 <= k < m ==> vs[..m][k] == vs[k];
    }
  }

  // ------------------------------------------------------------------------
  // Operations
  // ------------------------------------------------------------------------

  /** An operation means what it yields on the results before it. */
  lemma OpDenotes<V>(env: Env<V>, g: Graph<V>, results: seq<OpResult<V>>, i: nat, r: OpResult<V>)
    requires Ordered(g) && i < |g.ops| && Agree(env, g, results, i)
    ensures DenoteOp(env, g, i) == Ok(r) <==> Yields(env, results, g.ops[i], r)
  {
    var op := g.ops[i];
    assert OpOrdered(op, i);
    ArgumentsDenote(env, g, results, i, op.args);
    KeywordsDenote(env, g, results, i, op.kwargs);
    var args, kwargs := DenoteRefs(env, g, i, op.args), DenoteKwargs(env, g, i, op.kwargs);
    if args.Ok? && kwargs.Ok? {
      Promoted(env, args.value);
      YieldsOn(env, results, op, args.value, kwargs.value, r);
    } else {
      NothingYielded(env, results, op, r);
    }
  }

  lemma NothingYielded<V>(env: Env<V>, results: seq<OpResult<V>>, op: Op<V>, r: OpResult<V>)
    requires (exists k :: 0 <= k < |op.args| && Value(env, results, op.args[k]).None?) ||
             (exists k :: 0 <= k < |op.kwargs| && Keyword(env, results, op.kwargs[k].1).None?)
    ensures !Yields(env, results, op, r)
  {
    if k :| 0 <= k < |op.args| && Value(env, results, op.args[k]).None? {
      assert Argument(env, results, op.args[k]).None?;
    }
  }

  lemma YieldsOn<V>(env: Env<V>, results: seq<OpResult<V>>, op: Op<V>, args: seq<V>, kwargs: seq<(string, V)>,
                    r: OpResult<V>)
    requires |args| == |op.args| && forall k :: 0 <= k < |args| ==> Value(env, results, op.args[k]) == Some(args[k])
    requires |kwargs| == |op.kwargs| && forall k :: 0 <= k < |kwargs| ==> Bound(env, results, op.kwargs[k], kwargs[k])
    ensures Yields(env, results, op, r) <==>
            PromoteAll(env, args).Ok? && env.run(op.op, PromoteAll(env, args).value, kwargs) == Ok(r)
  {
    var p := PromoteAll(env, args);
    Promoted(env, args);
    assert forall k :: 0 <= k < |kwargs| ==> Bound(env, results, op.kwargs[k], kwargs[k]);
    if p.Ok? {
      forall k | 0 <= k < |args| ensures Argument(env, results, op.args[k]) == Some(p.value[k]) {
        assert Value(env, results, op.args[k]) == Some(args[k]);
      }
      assert seq(|op.args|, k requires 0 <= k < |op.args| => Argument(env, results, op.args[k]).value) == p.value;
      assert seq(|op.kwargs|, k requires 0 <= k < |op.kwargs| =>
        (op.kwargs[k].0, Keyword(env, results, op.kwargs[k].1).value)) == kwargs;
    } else {
      var k :| 0 <= k < |args| && env.promote(args[k]).Err?;
      assert Argument(env, results, op.args[k]).None?;
    }
  }

  // ------------------------------------------------------------------------
  // Outputs
  // ------------------------------------------------------------------------

  lemma OutputDenotes<V>(env: Env<V>, g: Graph<V>, results: seq<OpResult<V>>, ref: Ref<V>)
    requires Ordered(g) && Agree(env, g, results, |g.ops|) && Below(ref, |g.ops|)
    ensures var d, a := DenoteRef(env, g, |g.ops|, ref), Argument(env, results, ref);
            && (a.Some? <==> d.Ok? && env.promote(d.value).Ok?) && (a.Some? ==> env.promote(d.value) == Ok(a.value))
  {
    ValueDenotes(env, g, results, |g.ops|, ref);
  }

  lemma {:induction false} OutputsDenote<V>(env: Env<V>, g: Graph<V>, results: seq<OpResult<V>>,
                                            outputs: seq<(string, Ref<V>)>)
    requires Ordered(g) && Agree(env, g, results, |g.ops|) && OutputsBelow(outputs, |g.ops|)
    ensures var d := DenoteOutputs(env, g, outputs);
            && (d.Ok? <==> forall i :: 0 <= i < |outputs| ==> Argument(env, results, outputs[i].1).Some?)
            && (d.Ok? ==> Returns(env, results, outputs, d.value))
    decreases |outputs|
  {
    if outputs != [] {
      var m := |outputs| - 1;
      var init := outputs[..m];
      OutputsDenote(env, g, results, init);
      assert Below(outputs[m].1, |g.ops|);
      OutputDenotes(env, g, results, outputs[m].1);
      assert forall i :: 0 <= i < m ==> init[i] == outputs[i];
      if DenoteOutputs(env, g, outputs).Ok? {
        OneMoreReturned(env, results, outputs, DenoteOutputs(env, g, init).value);
      }
    }
  }

  lemma OneMoreReturned<V>(env: Env<V>, results: seq<OpResult<V>>, outputs: seq<(string, Ref<V>)>,
                           out: map<string, V>)
    requires outputs != [] && Returns(env, results, outputs[..|outputs| - 1], out)
    requires Argument(env, results, outputs[|outputs| - 1].1).Some?
    ensures var last := outputs[|outputs| - 1];
            Returns(env, results, outputs, out[last.0 := Argument(env, results, last.1).value])
  {
    var m := |outputs| - 1;
    var init, last := outputs[..m], outputs[m];
    var more := out[last.0 := Argument(env, results, last.1).value];
    forall i | 0 <= i < m ensures init[i] == outputs[i] && Argument(env, results, outputs[i].1).Some? {
      assert Argument(env, results, init[i].1).Some?;
    }
    forall i | 0 <= i < |outputs| && LastOfName(outputs, i)
      ensures more[outputs[i].0] == Argument(env, results, outputs[i].1).value
    {
      if i < m {
        StillLast(outputs, m, i);
      }
    }
    forall n | n in more ensures exists i :: 0 <= i < |outputs| && outputs[i].0 == n {
      NameKept(outputs, init, out, n);
    }
  }

  lemma StillLast<V>(outputs: seq<(string, Ref<V>)>, m: nat, i: nat)
    requires i < m <= |outputs| && LastOfName(outputs, i)
    ensures LastOfName(outputs[..m], i) && outputs[..m][i] == outputs[i]
    ensures m < |outputs| ==> outputs[m].0 != outputs[i].0
  {
    assert forall j :: i < j < m ==> outputs[..m][j] == outputs[j];
  }

  lemma NameKept<V>(outputs: seq<(string, Ref<V>)>, init: seq<(string, Ref<V>)>, out: map<string, V>, n: string)
    requires outputs != [] && init == outputs[..|outputs| - 1] && (n in out || n == outputs[|outputs| - 1].0)
    requires n in out ==> exists i :: 0 <= i < |init| && init[i].0 == n
    ensures exists i :: 0 <= i < |outputs| && outputs[i].0 == n
  {
    if n in out {
      var i :| 0 <= i < |init| && init[i].0 == n;
      assert outputs[i].0 == n;
    } else {
      assert outputs[|outputs| - 1].0 == n;
    }
  }

  lemma {:induction false} LastOne<V>(outputs: seq<(string, Ref<V>)>, n: string) returns (i: nat)
    requires exists k :: 0 <= k < |outputs| && outputs[k].0 == n
    ensures i < |outputs| && outputs[i].0 == n && LastOfName(outputs, i)
    decreases |outputs|
  {
    var m := |outputs| - 1;
    if outputs[m].0 == n {
      i := m;
    } else {
      var k :| 0 <= k < |outputs| && outputs[k].0 == n;
      assert outputs[..m][k].0 == n;
      i := LastOne(outputs[..m], n);
      assert forall j :: i < j < m ==> outputs[..m][j] == outputs[j];
    }
  }

  /** There is only one such dictionary. */
  lemma ReturnsOne<V>(env: Env<V>, results: seq<OpResult<V>>, outputs: seq<(string, Ref<V>)>, a: map<string, V>,
                      b: map<string, V>)
    requires Returns(env, results, outputs, a) && Returns(env, results, outputs, b)
    ensures a == b
  {
    forall n | n in a || n in b ensures n in a && n in b && a[n] == b[n] {
      var i := LastOne(outputs, n);
    }
  }

  // ------------------------------------------------------------------------
  // Traces and meanings
  // ------------------------------------------------------------------------

  lemma {:induction false} TraceAgrees<V>(env: Env<V>, g: Graph<V>, results: seq<OpResult<V>>, n: nat)
    requires Ordered(g) && IsTrace(env, g, results) && n <= |g.ops|
    ensures Agree(env, g, results, n)
    decreases n
  {
    if n > 0 {
      TraceAgrees(env, g, results, n - 1);
      assert Yields(env, results, g.ops[n - 1], results[n - 1]);
      OpDenotes(env, g, results, n - 1, results[n - 1]);
    }
  }

  /** A graph with a trace whose outputs make a dictionary means that dictionary. */
  lemma TraceMeans<V>(env: Env<V>, g: Graph<V>, results: seq<OpResult<V>>, out: map<string, V>)
    requires Ordered(g) && Validated(env, g) && IsTrace(env, g, results) && Returns(env, results, g.outputs, out)
    ensures Means(env, g, out)
  {
    TraceAgrees(env, g, results, |g.ops|);
    OutputsDenote(env, g, results, g.outputs);
    ReturnsOne(env, results, g.outputs, out, DenoteOutputs(env, g, g.outputs).value);
  }

  lemma AgreeingIsTrace<V>(env: Env<V>, g: Graph<V>, results: seq<OpResult<V>>)
    requires Ordered(g) && Agree(env, g, results, |g.ops|)
    ensures IsTrace(env, g, results)
  {
    forall i | 0 <= i < |g.ops| ensures Yields(env, results, g.ops[i], results[i]) {
      OpDenotes(env, g, results, i, results[i]);
    }
  }

  /** And a graph that means a dictionary has such a trace. */
  lemma MeansTrace<V>(env: Env<V>, g: Graph<V>, out: map<string, V>) returns (results: seq<OpResult<V>>)
    requires Ordered(g) && Means(env, g, out)
    ensures Validated(env, g) && IsTrace(env, g, results) && Returns(env, results, g.outputs, out)
  {
    results := seq(|g.ops|, i requires 0 <= i < |g.ops| => DenoteOp(env, g, i).value);
    AgreeingIsTrace(env, g, results);
    OutputsDenote(env, g, results, g.outputs);
  }
}
