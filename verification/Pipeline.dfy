/** A transformer as per-layer steps, its monolithic greedy decode, and the worker
    stages that each run a contiguous slice of its layers. */
module Pipeline {
  import opened WideArithmetic
  import opened Worker

  /** Embedding, layers and head are uninterpreted; a layer's cache is a code. */
  datatype LayerModel = LayerModel(
    layerCount: nat,
    embed: (Operation, int, Tensor) -> Tensor,
    layer: (Operation, int, int, int, Tensor) -> (int, Tensor),
    head: Tensor -> Tensor,
    cacheBytes: (int, seq<int>) -> nat)

  // ---------------------------------------------------------------------------
  // Greedy sampling

  const INT32 := ElementType("int32", 4)
  const MAX_INT32: int := 0x7FFF_FFFF

  /** The logits of the last position. */
  function FinalRow(logits: Tensor): (row: Option<seq<int>>)
    ensures row.Some? ==> row.value != []
  {
    if logits.shape == [] then None else
    var vocabulary := logits.shape[|logits.shape| - 1];
    if logits.dtype.name !in {"bfloat16", "float16", "float32"} || vocabulary <= 0 || |logits.elements| < vocabulary then None
    else Some(logits.elements[|logits.elements| - vocabulary..])
  }

  /** Index of the largest value, the first of them on ties. */
  function GreedyIndex(values: seq<int>): (best: nat)
    requires values != []
    ensures best < |values|
  {
    if |values| == 1 then 0 else
    var front := GreedyIndex(values[..|values| - 1]);
    if values[|values| - 1] > values[front] then |values| - 1 else front
  }

  lemma {:induction false} GreedyIsFirstMaximum(values: seq<int>)
    requires values != []
    ensures forall i :: 0 <= i < |values| ==> values[i] <= values[GreedyIndex(values)]
    ensures forall i :: 0 <= i < GreedyIndex(values) ==> values[i] < values[GreedyIndex(values)]
  {
    if |values| > 1 { GreedyIsFirstMaximum(values[..|values| - 1]); }
  }

  /** The scan for the best token, by strict improvement only. */
  method GreedyToken(logits: Tensor) returns (r: Option<int>)
    ensures r == (if FinalRow(logits).None? || GreedyIndex(FinalRow(logits).value) > MAX_INT32 then None
                  else Some(GreedyIndex(FinalRow(logits).value)))
  {
    var row := FinalRow(logits);
    if row.None? { return None; }
    var values := row.value;
    var bestIndex, bestValue := 0, values[0];
    assert values[..1] == [values[0]];
    for index := 1 to |values|
      invariant 0 <= bestIndex < index && bestValue == values[bestIndex]
      invariant bestIndex == GreedyIndex(values[..index])
    {
      assert values[..index + 1][..index] == values[..index];
      if values[index] > bestValue { bestIndex, bestValue := index, values[index]; }
    }
    assert values[..|values|] == values;
    if bestIndex > MAX_INT32 { return None; }
    return Some(bestIndex);
  }

  // ---------------------------------------------------------------------------
  // Layers

  /** Layers lo to hi applied in order, each to its own cache. */
  function FoldLayers(model: LayerModel, op: Operation, position: int, lo: int, hi: int, codes: seq<int>, x: Tensor)
    : (r: (seq<int>, Tensor))
    requires |codes| == hi - lo
    ensures |r.0| == |codes|
    decreases |codes|
  {
    if codes == [] then ([], x) else
    var (before, hidden) := FoldLayers(model, op, position, lo, hi - 1, codes[..|codes| - 1], x);
    var (code, output) := model.layer(op, hi - 1, position, codes[|codes| - 1], hidden);
    (before + [code], output)
  }

  /** Running layers lo to hi is running lo to mid and then mid to hi. */
  lemma {:induction false} FoldSplits(model: LayerModel, op: Operation, position: int, lo: int, mid: int, hi: int,
                                      a: seq<int>, b: seq<int>, x: Tensor)
    requires |a| == mid - lo && |b| == hi - mid
    ensures var first := FoldLayers(model, op, position, lo, mid, a, x);
            var second := FoldLayers(model, op, position, mid, hi, b, first.1);
            FoldLayers(model, op, position, lo, hi, a + b, x) == (first.0 + second.0, second.1)
    decreases |b|
  {
    if b == [] {
      assert a + b == a;
      assert FoldLayers(model, op, position, lo, mid, a, x).0 + [] == FoldLayers(model, op, position, lo, mid, a, x).0;
    } else {
      var front := b[..|b| - 1];
      FoldSplits(model, op, position, lo, mid, hi - 1, a, front, x);
      assert (a + b)[..|a + b| - 1] == a + front;
      var first := FoldLayers(model, op, position, lo, mid, a, x);
      var second := FoldLayers(model, op, position, mid, hi - 1, front, first.1);
      var last := model.layer(op, hi - 1, position, b[|b| - 1], second.1);
      assert (first.0 + second.0) + [last.0] == first.0 + (second.0 + [last.0]);
    }
  }

  // ---------------------------------------------------------------------------
  // The monolithic model

  function TokenTensor(tokens: seq<int>): Tensor {
    Tensor([1, |tokens|], INT32, tokens)
  }

  /** One forward pass through the whole model. */
  function MonolithicStep(model: LayerModel, op: Operation, position: int, codes: seq<int>, tokens: seq<int>): (r: (seq<int>, Tensor))
    requires |codes| == model.layerCount
    ensures |r.0| == |codes|
  {
    var (next, hidden) :=
      FoldLayers(model, op, position, 0, model.layerCount, codes, model.embed(op, position, TokenTensor(tokens)));
    (next, model.head(hidden))
  }

  datatype StopReason = EOS | MaxTokens

  datatype Generation = Generation(tokens: seq<int>, stop: StopReason, codes: seq<int>)

  /** Greedy decode of the whole model from given logits. */
  function MonolithicDecode(model: LayerModel, eos: Option<int>, maxTokens: nat, position: int, codes: seq<int>,
                            logits: Tensor, tokens: seq<int>): Option<Generation>
    requires |codes| == model.layerCount && |tokens| < maxTokens
    decreases maxTokens - |tokens|
  {
    var row := FinalRow(logits);
    if row.None? then None else
    var token := GreedyIndex(row.value);
    var next := tokens + [token];
    if eos == Some(token) then Some(Generation(next, EOS, codes))
    else if |next| == maxTokens then Some(Generation(next, MaxTokens, codes))
    else
      var (codes', logits') := MonolithicStep(model, Decode, position, codes, [token]);
      MonolithicDecode(model, eos, maxTokens, position + 1, codes', logits', next)
  }

  function MonolithicGenerate(model: LayerModel, initial: seq<int>, prompt: seq<int>, eos: Option<int>, maxTokens: nat)
    : Option<Generation>
    requires |initial| == model.layerCount && maxTokens > 0
  {
    var (codes, logits) := MonolithicStep(model, Prefill, 0, initial, prompt);
    MonolithicDecode(model, eos, maxTokens, |prompt|, codes, logits, [])
  }

  /** It stops at the first end-of-sequence token, or else exactly at the limit. */
  lemma {:induction false} StopsAtFirstEOSOrLimit(model: LayerModel, eos: Option<int>, maxTokens: nat, position: int,
                                                  codes: seq<int>, logits: Tensor, tokens: seq<int>)
    requires |codes| == model.layerCount && |tokens| < maxTokens
    requires forall i :: 0 <= i < |tokens| ==> eos != Some(tokens[i])
    ensures var r := MonolithicDecode(model, eos, maxTokens, position, codes, logits, tokens);
            r.Some? ==>
              && tokens < r.value.tokens && |r.value.tokens| <= maxTokens
              && (forall i :: 0 <= i < |r.value.tokens| - 1 ==> eos != Some(r.value.tokens[i]))
              && (r.value.stop == EOS <==> eos == Some(r.value.tokens[|r.value.tokens| - 1]))
              && (r.value.stop == MaxTokens ==> |r.value.tokens| == maxTokens)
    decreases maxTokens - |tokens|
  {
    var row := FinalRow(logits);
    if row.Some? {
      var token := GreedyIndex(row.value);
      var next := tokens + [token];
      if eos != Some(token) && |next| < maxTokens {
        var (codes', logits') := MonolithicStep(model, Decode, position, codes, [token]);
        StopsAtFirstEOSOrLimit(model, eos, maxTokens, position + 1, codes', logits', next);
      }
    }
  }

  // ---------------------------------------------------------------------------
  // A slice of the model as a worker stage

  /** What a stage call for layers start to end does to its cache and input. */
  function SliceOutcome(model: LayerModel, start: int, end: int, op: Operation, cache: Cache, input: Tensor): StageOutcome {
    if |cache.content| != end - start then Threw(cache, "cache does not fit the layer range") else
    var x := if start == 0 then model.embed(op, cache.position, input) else input;
    var (codes, hidden) := FoldLayers(model, op, cache.position, start, end, cache.content, x);
    var output := if end == model.layerCount then model.head(hidden) else hidden;
    var row := FinalRow(output);
    Computed(Cache(cache.position + InputLength(input), model.cacheBytes(start, codes), codes), output,
             if row.None? then NotANumber else Argmax(GreedyIndex(row.value)))
  }

  ghost predicate RunsSlice(adapter: Adapter, model: LayerModel, start: int, end: int) {
    forall op, cache, input :: op != Forward ==> SliceCall(adapter, model, start, end, op, cache, input)
  }

  ghost predicate SliceCall(adapter: Adapter, model: LayerModel, start: int, end: int, op: Operation, cache: Cache, input: Tensor) {
    adapter.run(op, cache, input) == SliceOutcome(model, start, end, op, cache, input)
  }
}
