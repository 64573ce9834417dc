/** The evaluator: a loop that fills a table of results, and the meaning it computes. */
module Evaluator {
  import opened Common
  import opened Graphs

  /** What an operation returns. */
  datatype OpResult<V> = Single(value: V) | Multi(values: seq<V>)

  /**
   What evaluation depends on: tensors by name, parameters, the decoded blobs of the bucket, the
   value of a slot not yet filled, the properties of tensors, the conversion of plain values to
   tensors, and the operations themselves.
   */
  datatype Env<!V> = Env(
    inputs: map<string, V>, params: map<string, V>, blobs: map<string, V>, none: V,
    shapeOf: V -> seq<int>, dtypeOf: V -> string, promote: V -> Result<V>,
    run: (string, seq<V>, seq<(string, V)>) -> Result<OpResult<V>>)

  // ------------------------------------------------------------------------
  // Validation
  // ------------------------------------------------------------------------

  predicate ShapeFits(declared: seq<int>, actual: seq<int>)
  {
    |declared| == |actual| && forall i :: 0 <= i < |declared| ==> declared[i] == -1 || declared[i] == actual[i]
  }

  /** A declared dimension of -1 admits every size at its place, and without one only the declared shape fits. */
  lemma AnyDimension(declared: seq<int>, actual: seq<int>, i: nat)
    ensures |declared| == |actual| && i < |declared| ==>
              (ShapeFits(declared[i := -1], actual) <==> ShapeFits(declared[i := actual[i]], actual))
    ensures -1 !in declared ==> (ShapeFits(declared, actual) <==> declared == actual)
    ensures |declared| != |actual| ==> !ShapeFits(declared, actual)
  {
    if |declared| == |actual| && i < |declared| {
      var any, one := declared[i := -1], declared[i := actual[i]];
      assert forall j :: 0 <= j < |declared| && j != i ==> any[j] == one[j];
    }
  }

  predicate InputFits<V>(env: Env<V>, spec: Spec)
  {
    spec.name in env.inputs && env.dtypeOf(env.inputs[spec.name]) == spec.dtype &&
      ShapeFits(spec.shape, env.shapeOf(env.inputs[spec.name]))
  }

  predicate Validated<V>(env: Env<V>, g: Graph<V>)
  {
    && (forall i :: 0 <= i < |g.inputs| ==> InputFits(env, g.inputs[i]))
    && (forall i :: 0 <= i < |g.params| ==> g.params[i] in env.params)
  }

  /** The blob has the shape and element type declared for it; an empty declaration fits all. */
  predicate BlobFits<V>(env: Env<V>, ref: Ref<V>)
    requires ref.BlobRef?
  {
    && ref.uri in env.blobs
    && (ref.shape == [] || env.shapeOf(env.blobs[ref.uri]) == ref.shape)
    && (ref.dtype == "" || env.dtypeOf(env.blobs[ref.uri]) == ref.dtype)
  }

  // ------------------------------------------------------------------------
  // References
  // ------------------------------------------------------------------------

  /** Indexing that counts from the end for negative positions. */
  function Index<T>(s: seq<T>, i: int): Option<T>
  {
    if 0 <= i < |s| then Some(s[i]) else if -|s| <= i < 0 then Some(s[|s| + i]) else None
  }

  function Project<V>(r: OpResult<V>, idx: int): Result<V>
  {
    match r
    case Multi(vs) => (match Index(vs, idx) case Some(v) => Ok(v) case None => Err("no such output"))
    case Single(v) => if idx == 0 then Ok(v) else Err("single output")
  }

  /** The value of a reference given the table of results, blobs taken as they are. */
  function Lookup<V>(env: Env<V>, slots: seq<Option<OpResult<V>>>, ref: Ref<V>): Result<V>
  {
    match ref
    case InputRef(name) => if name in env.inputs then Ok(env.inputs[name]) else Err("missing graph input")
    case ParamRef(name) => if name in env.params then Ok(env.params[name]) else Err("missing param")
    case ConstRef(v) => Ok(v)
    case BlobRef(uri, _, _) => if uri in env.blobs then Ok(env.blobs[uri]) else Err("missing blob")
    case OpRef(id, idx) =>
      var slot := Index(slots, id);
      if slot.None? then Err("no such op")
      else if slot.value.None? then Project(Single(env.none), idx)
      else Project(slot.value.value, idx)
  }

  /** The blobs read after one more reference, or nothing if its first read finds it unfit. */
  function Scan<V>(env: Env<V>, seen: set<string>, ref: Ref<V>): Option<set<string>>
  {
    if !ref.BlobRef? || ref.uri in seen then Some(seen)
    else if BlobFits(env, ref) then Some(seen + {ref.uri})
    else None
  }

  function ScanAll<V>(env: Env<V>, seen: set<string>, refs: seq<Ref<V>>): Option<set<string>>
    decreases |refs|
  {
    if refs == [] then Some(seen)
    else
      var s := ScanAll(env, seen, refs[..|refs| - 1]);
      if s.None? then None else Scan(env, s.value, refs[|refs| - 1])
  }

  /** The cache holds the bucket's blobs. */
  predicate CacheSound<V(==)>(env: Env<V>, cache: map<string, V>)
  {
    forall uri :: uri in cache ==> uri in env.blobs && cache[uri] == env.blobs[uri]
  }

  /**
   `v` is output `idx` of a result: of several the one at that place, counted from the end when negative, and of
   a single one only the first.
   */
  predicate Picks<V(==)>(r: OpResult<V>, idx: int, v: Result<V>)
  {
    match r
    case Single(x) => if idx == 0 then v == Ok(x) else v.Err?
    case Multi(xs) =>
      if 0 <= idx < |xs| then v == Ok(xs[idx]) else if -|xs| <= idx < 0 then v == Ok(xs[|xs| + idx]) else v.Err?
  }

  method ResolveRef<V(==)>(env: Env<V>, slots: seq<Option<OpResult<V>>>, cache: map<string, V>, ref: Ref<V>)
    returns (r: Result<V>, cache': map<string, V>)
    requires CacheSound(env, cache)
    ensures CacheSound(env, cache')
    ensures r.Ok? <==> Lookup(env, slots, ref).Ok? && Scan(env, cache.Keys, ref).Some?
    ensures r.Ok? ==> r == Lookup(env, slots, ref) && cache'.Keys == Scan(env, cache.Keys, ref).value
    ensures ref.OpRef? && 0 <= ref.id < |slots| && slots[ref.id].Some? ==> Picks(slots[ref.id].value, ref.idx, r)
  {
    cache' := cache;
    match ref
    case InputRef(name) =>
      r := if name in env.inputs then Ok(env.inputs[name]) else Err("missing graph input");
    case ParamRef(name) =>
      r := if name in env.params then Ok(env.params[name]) else Err("missing param");
    case ConstRef(v) =>
      r := Ok(v);
    case OpRef(id, idx) =>
      r := Lookup(env, slots, ref);
    case BlobRef(uri, shape, dtype) =>
      if uri in cache {
        return Ok(cache[uri]), cache;
      }
      if uri !in env.blobs {
        return Err("missing blob"), cache;
      }
      var t := env.blobs[uri];
      if shape != [] && env.shapeOf(t) != shape {
        return Err("shape differs from the declared one"), cache;
      }
      if dtype != "" && env.dtypeOf(t) != dtype {
        return Err("dtype differs from the declared one"), cache;
      }
      cache' := cache[uri := t];
      r := Ok(t);
  }

  // ------------------------------------------------------------------------
  // One operation
  // ------------------------------------------------------------------------

  function LookupAll<V>(env: Env<V>, slots: seq<Option<OpResult<V>>>, refs: seq<Ref<V>>): Result<seq<V>>
    decreases |refs|
  {
    if refs == [] then Ok([])
    else
      var init, last := LookupAll(env, slots, refs[..|refs| - 1]), Lookup(env, slots, refs[|refs| - 1]);
      if init.Err? then init else if last.Err? then Err(last.reason) else Ok(init.value + [last.value])
  }

  function PromoteAll<V>(env: Env<V>, vs: seq<V>): Result<seq<V>>
    decreases |vs|
  {
    if vs == [] then Ok([])
    else
      var init, last := PromoteAll(env, vs[..|vs| - 1]), env.promote(vs[|vs| - 1]);
      if init.Err? then init else if last.Err? then Err(last.reason) else Ok(init.value + [last.value])
  }

  function LookupKwarg<V>(env: Env<V>, slots: seq<Option<OpResult<V>>>, k: Kwarg<V>): Result<V>
  {
    if k.Literal? then Ok(k.value) else Lookup(env, slots, k.ref)
  }

  function LookupKwargs<V>(env: Env<V>, slots: seq<Option<OpResult<V>>>,
                           ks: seq<(string, Kwarg<V>)>): Result<seq<(string, V)>>
    decreases |ks|
  {
    if ks == [] then Ok([])
    else
      var init, last := LookupKwargs(env, slots, ks[..|ks| - 1]), LookupKwarg(env, slots, ks[|ks| - 1].1);
      if init.Err? then init
      else if last.Err? then Err(last.reason)
      else Ok(init.value + [(ks[|ks| - 1].0, last.value)])
  }

  function RefsOfKwarg<V>(k: Kwarg<V>): seq<Ref<V>> { if k.Literal? then [] else [k.ref] }

  function RefsOfKwargs<V>(ks: seq<(string, Kwarg<V>)>): seq<Ref<V>>
  {
    if ks == [] then [] else RefsOfKwargs(ks[..|ks| - 1]) + RefsOfKwarg(ks[|ks| - 1].1)
  }

  /** The references an operation resolves, in the order it resolves them. */
  function RefsOf<V>(op: Op<V>): seq<Ref<V>> { op.args + RefsOfKwargs(op.kwargs) }

  /** What an operation yields on resolved arguments. */
  function Run<V>(env: Env<V>, op: string, args: Result<seq<V>>, kwargs: Result<seq<(string, V)>>): Result<OpResult<V>>
  {
    if args.Err? then Err(args.reason)
    else
      var promoted := PromoteAll(env, args.value);
      if promoted.Err? then Err(promoted.reason)
      else if kwargs.Err? then Err(kwargs.reason)
      else env.run(op, promoted.value, kwargs.value)
  }

  lemma {:induction false} ScanConcat<V>(env: Env<V>, seen: set<string>, a: seq<Ref<V>>, b: seq<Ref<V>>)
    ensures ScanAll(env, seen, a + b) ==
            var s := ScanAll(env, seen, a); if s.None? then None else ScanAll(env, s.value, b)
    decreases |b|
  {
    if b == [] {
      assert a + b == a;
    } else {
      var n := |b| - 1;
      assert (a + b)[..|a + b| - 1] == a + b[..n] && (a + b)[|a + b| - 1] == b[n];
      ScanConcat(env, seen, a, b[..n]);
    }
  }

  /** The outcome of resolving references with a cache: failure, or the values with one more read each. */
  predicate Resolved<V(==), T(==)>(env: Env<V>, cache: map<string, V>, refs: seq<Ref<V>>, want: Result<T>,
                                   r: Result<T>, cache': map<string, V>)
  {
    && (r.Ok? <==> want.Ok? && ScanAll(env, cache.Keys, refs).Some?)
    && (r.Ok? ==> r == want && CacheSound(env, cache') && ScanAll(env, cache.Keys, refs) == Some(cache'.Keys))
  }

  lemma {:induction false} LookupFails<V>(env: Env<V>, slots: seq<Option<OpResult<V>>>, cache: map<string, V>,
                                          refs: seq<Ref<V>>, n: nat)
    requires n <= |refs| && (LookupAll(env, slots, refs[..n]).Err? || ScanAll(env, cache.Keys, refs[..n]).None?)
    ensures LookupAll(env, slots, refs).Err? || ScanAll(env, cache.Keys, refs).None?
    decreases |refs| - n
  {
    if n == |refs| {
      assert refs[..n] == refs;
    } else {
      assert refs[..n + 1][..n] == refs[..n];
      LookupFails(env, slots, cache, refs, n + 1);
    }
  }

  method ResolveArgs<V(==)>(env: Env<V>, slots: seq<Option<OpResult<V>>>, cache: map<string, V>, refs: seq<Ref<V>>)
    returns (r: Result<seq<V>>, cache': map<string, V>)
    requires CacheSound(env, cache)
    ensures Resolved(env, cache, refs, LookupAll(env, slots, refs), r, cache')
  {
    var vs: seq<V> := [];
    cache' := cache;
    for i := 0 to |refs|
      invariant CacheSound(env, cache') && LookupAll(env, slots, refs[..i]) == Ok(vs)
      invariant ScanAll(env, cache.Keys, refs[..i]) == Some(cache'.Keys)
    {
      assert refs[..i + 1][..i] == refs[..i];
      var v;
      v, cache' := ResolveRef(env, slots, cache', refs[i]);
      if v.Err? {
        LookupFails(env, slots, cache, refs, i + 1);
        return Err(v.reason), cache';
      }
      vs := vs + [v.value];
    }
    assert refs[..|refs|] == refs;
    return Ok(vs), cache';
  }

  lemma {:induction false} KwargsFail<V>(env: Env<V>, slots: seq<Option<OpResult<V>>>, cache: map<string, V>,
                                         ks: seq<(string, Kwarg<V>)>, n: nat)
    requires n <= |ks| &&
             (LookupKwargs(env, slots, ks[..n]).Err? || ScanAll(env, cache.Keys, RefsOfKwargs(ks[..n])).None?)
    ensures LookupKwargs(env, slots, ks).Err? || ScanAll(env, cache.Keys, RefsOfKwargs(ks)).None?
    decreases |ks| - n
  {
    if n == |ks| {
      assert ks[..n] == ks;
    } else {
      assert ks[..n + 1][..n] == ks[..n];
      ScanConcat(env, cache.Keys, RefsOfKwargs(ks[..n]), RefsOfKwarg(ks[n].1));
      KwargsFail(env, slots, cache, ks, n + 1);
    }
  }

  lemma ScanOne<V>(env: Env<V>, seen: set<string>, ref: Ref<V>)
    ensures ScanAll(env, seen, [ref]) == Scan(env, seen, ref)
  {
    assert [ref][..0] == [];
  }

  method ResolveKwarg<V(==)>(env: Env<V>, slots: seq<Option<OpResult<V>>>, cache: map<string, V>, k: Kwarg<V>)
    returns (r: Result<V>, cache': map<string, V>)
    requires CacheSound(env, cache)
    ensures Resolved(env, cache, RefsOfKwarg(k), LookupKwarg(env, slots, k), r, cache')
  {
    match k
    case Literal(v) =>
      r, cache' := Ok(v), cache;
    case Reference(ref) =>
      ScanOne(env, cache.Keys, ref);
      r, cache' := ResolveRef(env, slots, cache, ref);
  }

  /** The keywords up to and including the one at `i`. */
  lemma OneMoreKwarg<V>(env: Env<V>, slots: seq<Option<OpResult<V>>>, seen: set<string>, ks: seq<(string, Kwarg<V>)>,
                        i: nat)
    requires i < |ks|
    ensures LookupKwargs(env, slots, ks[..i + 1]) ==
      var init, last := LookupKwargs(env, slots, ks[..i]), LookupKwarg(env, slots, ks[i].1);
      if init.Err? then init else if last.Err? then Err(last.reason) else Ok(init.value + [(ks[i].0, last.value)])
    ensures ScanAll(env, seen, RefsOfKwargs(ks[..i + 1])) ==
      var s := ScanAll(env, seen, RefsOfKwargs(ks[..i]));
      if s.None? then None else ScanAll(env, s.value, RefsOfKwarg(ks[i].1))
  {
    assert ks[..i + 1][..i] == ks[..i];
    ScanConcat(env, seen, RefsOfKwargs(ks[..i]), RefsOfKwarg(ks[i].1));
  }

  method ResolveKwargs<V(==)>(env: Env<V>, slots: seq<Option<OpResult<V>>>, cache: map<string, V>,
                              ks: seq<(string, Kwarg<V>)>)
    returns (r: Result<seq<(string, V)>>, cache': map<string, V>)
    requires CacheSound(env, cache)
    ensures Resolved(env, cache, RefsOfKwargs(ks), LookupKwargs(env, slots, ks), r, cache')
  {
    var out: seq<(string, V)> := [];
    cache' := cache;
    for i := 0 to |ks|
      invariant CacheSound(env, cache') && LookupKwargs(env, slots, ks[..i]) == Ok(out)
      invariant ScanAll(env, cache.Keys, RefsOfKwargs(ks[..i])) == Some(cache'.Keys)
    {
      OneMoreKwarg(env, slots, cache.Keys, ks, i);
      var v;
      v, cache' := ResolveKwarg(env, slots, cache', ks[i].1);
      if v.Err? {
        KwargsFail(env, slots, cache, ks, i + 1);
        return Err(v.reason), cache';
      }
      out := out + [(ks[i].0, v.value)];
    }
    assert ks[..|ks|] == ks;
    return Ok(out), cache';
  }

  /** One operation: resolve and promote its arguments, resolve its keywords, run it. */
  method RunOp<V(==)>(env: Env<V>, slots: seq<Option<OpResult<V>>>, cache: map<string, V>, op: Op<V>)
    returns (r: Result<OpResult<V>>, cache': map<string, V>)
    requires CacheSound(env, cache)
    ensures Resolved(env, cache, RefsOf(op),
                     Run(env, op.op, LookupAll(env, slots, op.args), LookupKwargs(env, slots, op.kwargs)), r, cache')
  {
    ScanConcat(env, cache.Keys, op.args, RefsOfKwargs(op.kwargs));
    var args, cache1 := ResolveArgs(env, slots, cache, op.args);
    if args.Err? {
      return Err(args.reason), cache1;
    }
    var promoted := PromoteAll(env, args.value);
    if promoted.Err? {
      return Err(promoted.reason), cache1;
    }
    var kwargs;
    kwargs, cache' := ResolveKwargs(env, slots, cache1, op.kwargs);
    if kwargs.Err? {
      return Err(kwargs.reason), cache';
    }
    r := env.run(op.op, promoted.value, kwargs.value);
  }

  // ------------------------------------------------------------------------
  // The recursive meaning
  // ------------------------------------------------------------------------

  function DenoteRef<V>(env: Env<V>, g: Graph<V>, n: nat, ref: Ref<V>): Result<V>
    requires Ordered(g) && n <= |g.ops| && Below(ref, n)
    decreases n, 0, 0
  {
    if ref.OpRef? then
      var r := DenoteOp(env, g, ref.id);
      if r.Err? then Err(r.reason) else Project(r.value, ref.idx)
    else Lookup(env, [], ref)
  }

  function DenoteRefs<V>(env: Env<V>, g: Graph<V>, n: nat, refs: seq<Ref<V>>): Result<seq<V>>
    requires Ordered(g) && n <= |g.ops| && AllBelow(refs, n)
    decreases n, 1, |refs|
  {
    if refs == [] then Ok([])
    else
      var init, last := DenoteRefs(env, g, n, refs[..|refs| - 1]), DenoteRef(env, g, n, refs[|refs| - 1]);
      if init.Err? then init else if last.Err? then Err(last.reason) else Ok(init.value + [last.value])
  }

  function DenoteKwargs<V>(env: Env<V>, g: Graph<V>, n: nat, ks: seq<(string, Kwarg<V>)>): Result<seq<(string, V)>>
    requires Ordered(g) && n <= |g.ops| && KwargsBelow(ks, n)
    decreases n, 1, |ks|
  {
    if ks == [] then Ok([])
    else
      var (name, k) := ks[|ks| - 1];
      assert KwargBelow(k, n);
      var init := DenoteKwargs(env, g, n, ks[..|ks| - 1]);
      var last := if k.Literal? then Ok(k.value) else DenoteRef(env, g, n, k.ref);
      if init.Err? then init else if last.Err? then Err(last.reason) else Ok(init.value + [(name, last.value)])
  }

  /** What the operation at `i` yields, from what its arguments mean. */
  function DenoteOp<V>(env: Env<V>, g: Graph<V>, i: nat): Result<OpResult<V>>
    requires Ordered(g) && i < |g.ops|
    decreases i, 2, 0
  {
    assert OpOrdered(g.ops[i], i);
    Run(env, g.ops[i].op, DenoteRefs(env, g, i, g.ops[i].args), DenoteKwargs(env, g, i, g.ops[i].kwargs))
  }

  /** The named outputs, the later ones winning. */
  function DenoteOutputs<V>(env: Env<V>, g: Graph<V>, outputs: seq<(string, Ref<V>)>): Result<map<string, V>>
    requires Ordered(g) && OutputsBelow(outputs, |g.ops|)
    decreases |outputs|
  {
    if outputs == [] then Ok(map[])
    else
      var (name, ref) := outputs[|outputs| - 1];
      assert Below(ref, |g.ops|);
      var init, v := DenoteOutputs(env, g, outputs[..|outputs| - 1]), DenoteRef(env, g, |g.ops|, ref);
      if init.Err? then init
      else if v.Err? then Err(v.reason)
      else
        var t := env.promote(v.value);
        if t.Err? then Err(t.reason) else Ok(init.value[name := t.value])
  }

  predicate OpsDenote<V>(env: Env<V>, g: Graph<V>, n: nat)
    requires Ordered(g) && n <= |g.ops|
  {
    forall i :: 0 <= i < n ==> DenoteOp(env, g, i).Ok?
  }

  /** The meaning of a graph: its inputs fit, all its operations yield, and so do its outputs. */
  predicate Means<V(==)>(env: Env<V>, g: Graph<V>, out: map<string, V>)
    requires Ordered(g)
  {
    Validated(env, g) && OpsDenote(env, g, |g.ops|) && DenoteOutputs(env, g, g.outputs) == Ok(out)
  }

  // ------------------------------------------------------------------------
  // The table agrees with the meaning
  // ------------------------------------------------------------------------

  /** The first `n` slots are filled with what their operations mean. */
  ghost predicate Filled<V>(env: Env<V>, g: Graph<V>, slots: seq<Option<OpResult<V>>>, n: nat)
    requires Ordered(g)
  {
    && |slots| == |g.ops| && n <= |g.ops|
    && forall j :: 0 <= j < n ==> DenoteOp(env, g, j).Ok? && slots[j] == Some(DenoteOp(env, g, j).value)
  }

  lemma LookupDenotes<V>(env: Env<V>, g: Graph<V>, slots: seq<Option<OpResult<V>>>, n: nat, ref: Ref<V>)
    requires Ordered(g) && Filled(env, g, slots, n) && Below(ref, n)
    ensures Lookup(env, slots, ref) == DenoteRef(env, g, n, ref)
    ensures ref.OpRef? ==> slots[ref.id].Some?
  {
  }

  lemma {:induction false} LookupAllDenotes<V>(env: Env<V>, g: Graph<V>, slots: seq<Option<OpResult<V>>>, n: nat,
                                               refs: seq<Ref<V>>)
    requires Ordered(g) && Filled(env, g, slots, n) && AllBelow(refs, n)
    ensures LookupAll(env, slots, refs) == DenoteRefs(env, g, n, refs)
    decreases |refs|
  {
    if refs != [] {
      var k := |refs| - 1;
      LookupAllDenotes(env, g, slots, n, refs[..k]);
      LookupDenotes(env, g, slots, n, refs[k]);
    }
  }

  lemma {:induction false} LookupKwargsDenotes<V>(env: Env<V>, g: Graph<V>, slots: seq<Option<OpResult<V>>>, n: nat,
                                                  ks: seq<(string, Kwarg<V>)>)
    requires Ordered(g) && Filled(env, g, slots, n) && KwargsBelow(ks, n)
    ensures LookupKwargs(env, slots, ks) == DenoteKwargs(env, g, n, ks)
    decreases |ks|
  {
    if ks != [] {
      var m := |ks| - 1;
      assert KwargBelow(ks[m].1, n);
      LookupKwargsDenotes(env, g, slots, n, ks[..m]);
      if ks[m].1.Reference? {
        LookupDenotes(env, g, slots, n, ks[m].1.ref);
      }
    }
  }

  /** Running an operation on the table yields what it means; no slot it reads is unset. */
  lemma RunDenotes<V>(env: Env<V>, g: Graph<V>, slots: seq<Option<OpResult<V>>>, i: nat)
    requires Ordered(g) && Filled(env, g, slots, i) && i < |g.ops|
    ensures Run(env, g.ops[i].op, LookupAll(env, slots, g.ops[i].args), LookupKwargs(env, slots, g.ops[i].kwargs)) ==
            DenoteOp(env, g, i)
  {
    assert OpOrdered(g.ops[i], i);
    LookupAllDenotes(env, g, slots, i, g.ops[i].args);
    LookupKwargsDenotes(env, g, slots, i, g.ops[i].kwargs);
  }

  // ------------------------------------------------------------------------
  // The evaluation loop
  // ------------------------------------------------------------------------

  function OpsRefs<V>(ops: seq<Op<V>>): seq<Ref<V>>
  {
    if ops == [] then [] else OpsRefs(ops[..|ops| - 1]) + RefsOf(ops[|ops| - 1])
  }

  function OutputRefs<V>(outputs: seq<(string, Ref<V>)>): seq<Ref<V>>
  {
    if outputs == [] then [] else OutputRefs(outputs[..|outputs| - 1]) + [outputs[|outputs| - 1].1]
  }

  /** Every reference of the graph in the order of evaluation. */
  function AllRefs<V>(g: Graph<V>): seq<Ref<V>> { OpsRefs(g.ops) + OutputRefs(g.outputs) }

  lemma OneMoreOp<V>(env: Env<V>, ops: seq<Op<V>>, i: nat)
    requires i < |ops|
    ensures ScanAll(env, {}, OpsRefs(ops[..i + 1])) ==
      var s := ScanAll(env, {}, OpsRefs(ops[..i])); if s.None? then None else ScanAll(env, s.value, RefsOf(ops[i]))
  {
    assert ops[..i + 1][..i] == ops[..i];
    ScanConcat(env, {}, OpsRefs(ops[..i]), RefsOf(ops[i]));
  }

  lemma {:induction false} OpsScanFails<V>(env: Env<V>, ops: seq<Op<V>>, n: nat)
    requires n <= |ops| && ScanAll(env, {}, OpsRefs(ops[..n])).None?
    ensures ScanAll(env, {}, OpsRefs(ops)).None?
    decreases |ops| - n
  {
    if n == |ops| {
      assert ops[..n] == ops;
    } else {
      OneMoreOp(env, ops, n);
      OpsScanFails(env, ops, n + 1);
    }
  }

  /** Writing a slot by an index that counts from the end when negative. */
  function SetSlot<T>(s: seq<T>, i: int, v: T): (r: Result<seq<T>>)
    ensures r.Ok? ==> |r.value| == |s|
  {
    if 0 <= i < |s| then Ok(s[i := v]) else if -|s| <= i < 0 then Ok(s[|s| + i := v]) else Err("no such slot")
  }

  method RunOps<V(==)>(env: Env<V>, g: Graph<V>) returns (r: Result<seq<Option<OpResult<V>>>>, cache: map<string, V>)
    ensures CacheSound(env, cache)
    ensures Ordered(g) ==> (r.Ok? <==> OpsDenote(env, g, |g.ops|) && ScanAll(env, {}, OpsRefs(g.ops)).Some?)
    ensures Ordered(g) && r.Ok? ==>
            Filled(env, g, r.value, |g.ops|) && ScanAll(env, {}, OpsRefs(g.ops)) == Some(cache.Keys)
  {
    var slots: seq<Option<OpResult<V>>> := seq(|g.ops|, i => None);
    cache := map[];
    assert cache.Keys == {};
    for i := 0 to |g.ops|
      invariant CacheSound(env, cache) && |slots| == |g.ops|
      invariant Ordered(g) ==> Filled(env, g, slots, i) && ScanAll(env, {}, OpsRefs(g.ops[..i])) == Some(cache.Keys)
    {
      var v, cache1 := RunOp(env, slots, cache, g.ops[i]);
      if Ordered(g) {
        AfterOp(env, g, slots, cache, i, v, cache1);
      }
      if v.Err? {
        return Err(v.reason), cache;
      }
      var next := SetSlot(slots, g.ops[i].id, Some(v.value));
      if next.Err? {
        return Err(next.reason), cache;
      }
      slots, cache := next.value, cache1;
    }
    assert g.ops[..|g.ops|] == g.ops;
    return Ok(slots), cache;
  }

  /** One more operation on a table filled so far: its slot is filled, or the evaluation fails. */
  lemma AfterOp<V>(env: Env<V>, g: Graph<V>, slots: seq<Option<OpResult<V>>>, cache: map<string, V>, i: nat,
                   v: Result<OpResult<V>>, cache': map<string, V>)
    requires Ordered(g) && i < |g.ops| && Filled(env, g, slots, i) && CacheSound(env, cache)
    requires ScanAll(env, {}, OpsRefs(g.ops[..i])) == Some(cache.Keys)
    requires var op := g.ops[i];
             Resolved(env, cache, RefsOf(op),
                      Run(env, op.op, LookupAll(env, slots, op.args), LookupKwargs(env, slots, op.kwargs)), v, cache')
    ensures v.Err? ==> !OpsDenote(env, g, |g.ops|) || ScanAll(env, {}, OpsRefs(g.ops)).None?
    ensures v.Ok? ==> g.ops[i].id == i && CacheSound(env, cache') && Filled(env, g, slots[i := Some(v.value)], i + 1)
    ensures v.Ok? ==> ScanAll(env, {}, OpsRefs(g.ops[..i + 1])) == Some(cache'.Keys)
  {
    assert OpOrdered(g.ops[i], i);
    OneMoreOp(env, g.ops, i);
    RunDenotes(env, g, slots, i);
    if v.Err? && ScanAll(env, {}, OpsRefs(g.ops[..i + 1])).None? {
      OpsScanFails(env, g.ops, i + 1);
    }
  }

  method ValidateInputs<V>(env: Env<V>, g: Graph<V>) returns (ok: bool)
    ensures ok <==> Validated(env, g)
  {
    for i := 0 to |g.inputs|
      invariant forall j :: 0 <= j < i ==> InputFits(env, g.inputs[j])
    {
      if !InputFits(env, g.inputs[i]) {
        return false;
      }
    }
    for i := 0 to |g.params|
      invariant forall j :: 0 <= j < i ==> g.params[j] in env.params
    {
      if g.params[i] !in env.params {
        return false;
      }
    }
    return true;
  }

  lemma OneMoreOutput<V>(env: Env<V>, seen: set<string>, outputs: seq<(string, Ref<V>)>, i: nat)
    requires i < |outputs|
    ensures ScanAll(env, seen, OutputRefs(outputs[..i + 1])) ==
      var s := ScanAll(env, seen, OutputRefs(outputs[..i])); if s.None? then None else Scan(env, s.value, outputs[i].1)
  {
    assert outputs[..i + 1][..i] == outputs[..i];
    ScanConcat(env, seen, OutputRefs(outputs[..i]), [outputs[i].1]);
    if ScanAll(env, seen, OutputRefs(outputs[..i])).Some? {
      ScanOne(env, ScanAll(env, seen, OutputRefs(outputs[..i])).value, outputs[i].1);
    }
  }

  lemma {:induction false} OutputScanFails<V>(env: Env<V>, seen: set<string>, outputs: seq<(string, Ref<V>)>, n: nat)
    requires n <= |outputs| && ScanAll(env, seen, OutputRefs(outputs[..n])).None?
    ensures ScanAll(env, seen, OutputRefs(outputs)).None?
    decreases |outputs| - n
  {
    if n == |outputs| {
      assert outputs[..n] == outputs;
    } else {
      OneMoreOutput(env, seen, outputs, n);
      OutputScanFails(env, seen, outputs, n + 1);
    }
  }

  lemma {:induction false} OutputsFail<V>(env: Env<V>, g: Graph<V>, outputs: seq<(string, Ref<V>)>, n: nat)
    requires Ordered(g) && OutputsBelow(outputs, |g.ops|) && n <= |outputs| && DenoteOutputs(env, g, outputs[..n]).Err?
    ensures DenoteOutputs(env, g, outputs).Err?
    decreases |outputs| - n
  {
    if n == |outputs| {
      assert outputs[..n] == outputs;
    } else {
      assert outputs[..n + 1][..n] == outputs[..n];
      OutputsFail(env, g, outputs, n + 1);
    }
  }

  /** The outputs, on a table that is filled. */
  method ReadOutputs<V(==)>(env: Env<V>, g: Graph<V>, slots: seq<Option<OpResult<V>>>, cache: map<string, V>)
    returns (r: Result<map<string, V>>)
    requires CacheSound(env, cache) && (Ordered(g) ==> Filled(env, g, slots, |g.ops|))
    ensures Ordered(g) ==>
            (r.Ok? <==> DenoteOutputs(env, g, g.outputs).Ok? && ScanAll(env, cache.Keys, OutputRefs(g.outputs)).Some?)
    ensures Ordered(g) && r.Ok? ==> r == DenoteOutputs(env, g, g.outputs)
  {
    var out: map<string, V> := map[];
    var cache' := cache;
    for i := 0 to |g.outputs|
      invariant CacheSound(env, cache')
      invariant Ordered(g) ==> DenoteOutputs(env, g, g.outputs[..i]) == Ok(out)
      invariant Ordered(g) ==> ScanAll(env, cache.Keys, OutputRefs(g.outputs[..i])) == Some(cache'.Keys)
    {
      OneMoreOutput(env, cache.Keys, g.outputs, i);
      assert g.outputs[..i + 1][..i] == g.outputs[..i];
      if Ordered(g) {
        LookupDenotes(env, g, slots, |g.ops|, g.outputs[i].1);
      }
      var v;
      v, cache' := ResolveRef(env, slots, cache', g.outputs[i].1);
      var t := if v.Err? then v else env.promote(v.value);
      if t.Err? {
        if Ordered(g) {
          if DenoteOutputs(env, g, g.outputs[..i + 1]).Err? {
            OutputsFail(env, g, g.outputs, i + 1);
          } else {
            OutputScanFails(env, cache.Keys, g.outputs, i + 1);
          }
        }
        return Err(t.reason);
      }
      out := out[g.outputs[i].0 := t.value];
    }
    assert g.outputs[..|g.outputs|] == g.outputs;
    return Ok(out);
  }

  /** Every blob's first read finds it as declared there. */
  predicate FirstReadsFit<V>(env: Env<V>, g: Graph<V>) { ScanAll(env, {}, AllRefs(g)).Some? }

  /**
   The loop computes the recursive meaning: on a graph in order it succeeds exactly when the graph
   has a meaning and every blob is, where it is read first, as declared; and then it returns that meaning.
   */
  method Evaluate<V(==)>(env: Env<V>, g: Graph<V>) returns (r: Result<map<string, V>>)
    ensures Ordered(g) && r.Ok? ==> Means(env, g, r.value) && FirstReadsFit(env, g)
    ensures Ordered(g) && r.Err? ==> !FirstReadsFit(env, g) || forall out :: !Means(env, g, out)
  {
    var ok := ValidateInputs(env, g);
    if !ok {
      return Err("input or param does not fit");
    }
    ScanConcat(env, {}, OpsRefs(g.ops), OutputRefs(g.outputs));
    var slots, cache := RunOps(env, g);
    if slots.Err? {
      return Err(slots.reason);
    }
    r := ReadOutputs(env, g, slots.value, cache);
  }

  // ------------------------------------------------------------------------
  // What the blob cache changes
  // ------------------------------------------------------------------------

  /** Every blob reference of the graph declares the blob as it is. */
  predicate AllReadsFit<V>(env: Env<V>, refs: seq<Ref<V>>)
  {
    forall i :: 0 <= i < |refs| && refs[i].BlobRef? ==> BlobFits(env, refs[i])
  }

  lemma {:induction false} FitReadsScan<V>(env: Env<V>, seen: set<string>, refs: seq<Ref<V>>)
    requires AllReadsFit(env, refs)
    ensures ScanAll(env, seen, refs).Some?
    decreases |refs|
  {
    if refs != [] {
      FitReadsScan(env, seen, refs[..|refs| - 1]);
    }
  }

  lemma {:induction false} ScanSees<V>(env: Env<V>, refs: seq<Ref<V>>, i: nat)
    requires ScanAll(env, {}, refs).Some? && i < |refs| && refs[i].BlobRef?
    ensures refs[i].uri in ScanAll(env, {}, refs).value
    decreases |refs|
  {
    var n := |refs| - 1;
    if i < n {
      ScanSees(env, refs[..n], i);
    }
  }

  /** A blob seen was fit at its first read. */
  lemma {:induction false} SeenWasFit<V>(env: Env<V>, refs: seq<Ref<V>>, uri: string) returns (i: nat)
    requires ScanAll(env, {}, refs).Some? && uri in ScanAll(env, {}, refs).value
    ensures i < |refs| && refs[i].BlobRef? && refs[i].uri == uri && BlobFits(env, refs[i])
    ensures forall j :: 0 <= j < i && refs[j].BlobRef? ==> refs[j].uri != uri
    decreases |refs|
  {
    var n := |refs| - 1;
    var before := ScanAll(env, {}, refs[..n]).value;
    if uri in before {
      i := SeenWasFit(env, refs[..n], uri);
    } else {
      i := n;
      forall j | 0 <= j < n && refs[j].BlobRef? ensures refs[j].uri != uri {
        assert refs[..n][j] == refs[j];
        ScanSees(env, refs[..n], j);
      }
    }
  }

  /** No earlier reference reads the same blob. */
  predicate FirstRead<V>(refs: seq<Ref<V>>, i: nat)
    requires i < |refs|
  {
    refs[i].BlobRef? && forall j :: 0 <= j < i && refs[j].BlobRef? ==> refs[j].uri != refs[i].uri
  }

  predicate FitIfFirst<V>(env: Env<V>, refs: seq<Ref<V>>, i: nat)
    requires i < |refs|
  {
    FirstRead(refs, i) ==> BlobFits(env, refs[i])
  }

  /** The first reference to each blob declares it as it is. */
  predicate FirstsFit<V>(env: Env<V>, refs: seq<Ref<V>>) { forall i :: 0 <= i < |refs| ==> FitIfFirst(env, refs, i) }

  lemma SameFirst<V>(env: Env<V>, refs: seq<Ref<V>>, n: nat, i: nat)
    requires i < n <= |refs|
    ensures FitIfFirst(env, refs, i) <==> FitIfFirst(env, refs[..n], i)
  {
    var init := refs[..n];
    assert forall j :: 0 <= j <= i ==> init[j] == refs[j];
  }

  lemma FirstsFitStep<V>(env: Env<V>, refs: seq<Ref<V>>)
    requires refs != []
    ensures FirstsFit(env, refs) <==> FirstsFit(env, refs[..|refs| - 1]) && FitIfFirst(env, refs, |refs| - 1)
  {
    var n := |refs| - 1;
    forall i | 0 <= i < n ensures FitIfFirst(env, refs, i) <==> FitIfFirst(env, refs[..n], i) {
      SameFirst(env, refs, n, i);
    }
  }

  lemma LastIsFirst<V>(env: Env<V>, refs: seq<Ref<V>>)
    requires refs != [] && refs[|refs| - 1].BlobRef? && ScanAll(env, {}, refs[..|refs| - 1]).Some?
    ensures FirstRead(refs, |refs| - 1) <==> refs[|refs| - 1].uri !in ScanAll(env, {}, refs[..|refs| - 1]).value
  {
    var n := |refs| - 1;
    var init, uri := refs[..n], refs[n].uri;
    if uri in ScanAll(env, {}, init).value {
      var j := SeenWasFit(env, init, uri);
      assert refs[j] == init[j];
    } else {
      forall j | 0 <= j < n && refs[j].BlobRef? ensures refs[j].uri != uri {
        assert init[j] == refs[j];
        ScanSees(env, init, j);
      }
    }
  }

  /** The scan succeeds exactly when the first reference to each blob declares it as it is. */
  lemma {:induction false} ScanIff<V>(env: Env<V>, refs: seq<Ref<V>>)
    ensures ScanAll(env, {}, refs).Some? <==> FirstsFit(env, refs)
    decreases |refs|
  {
    if refs != [] {
      var n := |refs| - 1;
      ScanIff(env, refs[..n]);
      FirstsFitStep(env, refs);
      if ScanAll(env, {}, refs[..n]).Some? && refs[n].BlobRef? {
        LastIsFirst(env, refs);
      }
    }
  }

  /** Only the first reference to each blob is held to its declaration; if all references fit, so do the first ones. */
  lemma CacheHidesLaterReads<V>(env: Env<V>, g: Graph<V>)
    ensures AllReadsFit(env, AllRefs(g)) ==> FirstReadsFit(env, g)
    ensures FirstReadsFit(env, g) <==> FirstsFit(env, AllRefs(g))
  {
    if AllReadsFit(env, AllRefs(g)) {
      FitReadsScan(env, {}, AllRefs(g));
    }
    ScanIff(env, AllRefs(g));
  }

  /** A graph whose second reference to a blob declares another shape: evaluation does not notice. */
  lemma LaterReadsUnchecked<V>(env: Env<V>, uri: string, v: V)
    requires env.blobs == map[uri := v] && env.shapeOf(v) == [1]
    ensures var g := Graph([], [("a", BlobRef(uri, [1], "")), ("b", BlobRef(uri, [2], ""))], [], []);
            FirstReadsFit(env, g) && !AllReadsFit(env, AllRefs(g))
  {
    var a, b := BlobRef(uri, [1], ""), BlobRef(uri, [2], "");
    var outputs: seq<(string, Ref<V>)> := [("a", a), ("b", b)];
    var g := Graph([], outputs, [], []);
    assert outputs[..1] == [("a", a)] && outputs[..1][..0] == [];
    assert OutputRefs(outputs[..1]) == [a] && OutputRefs(outputs) == [a, b];
    assert AllRefs(g) == [a, b];
    var refs: seq<Ref<V>> := [a, b];
    assert refs[..1] == [a] && refs[1] == b;
    ScanOne(env, {}, a);
    assert BlobFits(env, a) && !BlobFits(env, b);
  }
}
