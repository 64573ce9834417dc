/** Operation graphs and the builder that makes them. */
module Graphs {
  import opened Common

  /** Where an operation or an output takes a value from. */
  datatype Ref<V> =
    | InputRef(name: string)
    | OpRef(id: int, idx: int)
    | ParamRef(name: string)
    | ConstRef(value: V)
    | BlobRef(uri: string, shape: seq<int>, dtype: string)

  datatype Kwarg<V> = Literal(value: V) | Reference(ref: Ref<V>)

  datatype Op<V> = Op(id: int, op: string, args: seq<Ref<V>>, kwargs: seq<(string, Kwarg<V>)>)

  /** A declared input; a dimension of -1 stands for any. */
  datatype Spec = Spec(name: string, shape: seq<int>, dtype: string)

  datatype Graph<V> = Graph(inputs: seq<Spec>, outputs: seq<(string, Ref<V>)>, params: seq<string>, ops: seq<Op<V>>)

  /** The number of arguments of an operation, or a negative number for any, and its keywords. */
  datatype Signature = Signature(nArgs: int, kwargs: set<string>)

  /** The reference names no operation, or one of the first `n`. */
  predicate Below<V>(ref: Ref<V>, n: nat) { ref.OpRef? ==> 0 <= ref.id < n }

  predicate KwargBelow<V>(k: Kwarg<V>, n: nat) { k.Reference? ==> Below(k.ref, n) }

  predicate AllBelow<V>(refs: seq<Ref<V>>, n: nat) { forall i :: 0 <= i < |refs| ==> Below(refs[i], n) }

  predicate KwargsBelow<V>(ks: seq<(string, Kwarg<V>)>, n: nat) { forall i :: 0 <= i < |ks| ==> KwargBelow(ks[i].1, n) }

  predicate OpOrdered<V>(op: Op<V>, i: nat) { op.id == i && AllBelow(op.args, i) && KwargsBelow(op.kwargs, i) }

  predicate OutputsBelow<V>(outputs: seq<(string, Ref<V>)>, n: nat)
  {
    forall i :: 0 <= i < |outputs| ==> Below(outputs[i].1, n)
  }

  /** Operations are numbered in order and refer to earlier ones only. */
  predicate Ordered<V>(g: Graph<V>)
  {
    (forall i :: 0 <= i < |g.ops| ==> OpOrdered(g.ops[i], i)) && OutputsBelow(g.outputs, |g.ops|)
  }

  class GraphBuilder<V> {
    const registry: map<string, Signature>
    var inputs: seq<Spec>
    var outputs: seq<(string, Ref<V>)>
    var params: seq<string>
    var ops: seq<Op<V>>

    ghost function View(): Graph<V>
      reads this
    {
      Graph(inputs, outputs, params, ops)
    }

    constructor (registry: map<string, Signature>)
      ensures this.registry == registry && View() == Graph([], [], [], []) && Ordered(View())
    {
      this.registry := registry;
      inputs, outputs, params, ops := [], [], [], [];
    }

    method Input(name: string, shape: seq<int>, dtype: string) returns (r: Result<Ref<V>>)
      modifies this`inputs
      ensures r.Err? <==> exists i :: 0 <= i < |old(inputs)| && old(inputs)[i].name == name
      ensures r.Err? ==> inputs == old(inputs)
      ensures r.Ok? ==> inputs == old(inputs) + [Spec(name, shape, dtype)] && r.value == InputRef(name)
    {
      for i := 0 to |inputs|
        invariant inputs == old(inputs) && forall j :: 0 <= j < i ==> inputs[j].name != name
      {
        if inputs[i].name == name {
          return Err("duplicate input name");
        }
      }
      inputs := inputs + [Spec(name, shape, dtype)];
      return Ok(InputRef(name));
    }

    method Param(name: string) returns (r: Result<Ref<V>>)
      modifies this`params
      ensures r.Err? <==> name in old(params)
      ensures params == if r.Ok? then old(params) + [name] else old(params)
      ensures r.Ok? ==> r.value == ParamRef(name)
    {
      if name in params {
        return Err("duplicate param name");
      }
      params := params + [name];
      return Ok(ParamRef(name));
    }

    method Output(name: string, ref: Ref<V>)
      modifies this`outputs
      ensures outputs == old(outputs) + [(name, ref)]
      ensures old(Ordered(View())) && Below(ref, |ops|) ==> Ordered(View())
    {
      outputs := outputs + [(name, ref)];
    }

    /** An operation is accepted when its name is known, its argument count fits and its keywords are known. */
    predicate Accepts(op: string, args: seq<Ref<V>>, kwargs: seq<(string, Kwarg<V>)>)
    {
      && op in registry && (registry[op].nArgs < 0 || |args| == registry[op].nArgs)
      && forall i :: 0 <= i < |kwargs| ==> kwargs[i].0 in registry[op].kwargs
    }

    /**
     Appends an operation and returns references to its `n` results. If all it refers to was
     returned by earlier calls, the graph stays in order.
     */
    method EmitMulti(op: string, args: seq<Ref<V>>, kwargs: seq<(string, Kwarg<V>)>, n: nat)
      returns (r: Result<seq<Ref<V>>>)
      modifies this`ops
      ensures r.Ok? <==> Accepts(op, args, kwargs)
      ensures r.Err? ==> ops == old(ops)
      ensures r.Ok? ==> ops == old(ops) + [Op(|old(ops)|, op, args, kwargs)]
      ensures r.Ok? ==> |r.value| == n && forall i :: 0 <= i < n ==>
              r.value[i] == OpRef(|old(ops)|, i) && Below(r.value[i], |ops|)
      ensures old(Ordered(View())) && AllBelow(args, |old(ops)|) && KwargsBelow(kwargs, |old(ops)|) ==> Ordered(View())
    {
      if op !in registry {
        return Err("unknown op");
      }
      if registry[op].nArgs >= 0 && |args| != registry[op].nArgs {
        return Err("wrong number of args");
      }
      for i := 0 to |kwargs|
        invariant ops == old(ops) && forall j :: 0 <= j < i ==> kwargs[j].0 in registry[op].kwargs
      {
        if kwargs[i].0 !in registry[op].kwargs {
          return Err("unexpected kwarg");
        }
      }
      var id := |ops|;
      ops := ops + [Op(id, op, args, kwargs)];
      return Ok(seq(n, i => OpRef(id, i)));
    }

    method Build() returns (g: Graph<V>)
      ensures g == View()
    {
      g := Graph(inputs, outputs, params, ops);
    }
  }
}
