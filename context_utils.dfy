/** Locating the cache manager of one attention layer
    (backend/routers/context/context_utils.py). */
module ContextUtils {

  import opened Wrappers
  import PyText

  /** A layer's attention module; its cache manager attribute may be absent. */
  datatype Attention<C> = Attention(pastKeyValue: Option<C>)

  /** A decoder layer; its `self_attn` attribute may be absent. */
  datatype Layer<C> = Layer(selfAttn: Option<Attention<C>>)

  /** `ValueError` with its message, or the `IndexError` that indexing a list
      below its negative range raises. */
  datatype LookupError = ValueError(message: string) | IndexError

  function RangeMessage(idx: int, n: nat): string
  {
    "Layer index " + PyText.IntToString(idx) + " is out of range for the model with "
    + PyText.IntToString(n) + " layers."
  }

  function NoSelfAttnMessage(idx: int): string
  {
    "Layer " + PyText.IntToString(idx) + " does not have a self_attn attribute."
  }

  function NoCacheMessage(idx: int): string
  {
    "Layer " + PyText.IntToString(idx) + " does not have a _past_key_value attribute."
  }

  /** The position a Python index names in a list of length `n`, if any. */
  function Position(idx: int, n: nat): (p: Option<nat>)
    ensures p.Some? <==> -(n as int) <= idx < n
    ensures p.Some? ==> p.value < n && (p.value == idx || p.value == idx + n)
  {
    if 0 <= idx < n then Some(idx) else if -(n as int) <= idx < 0 then Some(idx + n) else None
  }

  /** `extract_ctx_manager(layer_idx)`: the range check (which only bounds the
      index from above), then the two attribute checks, in that order. */
  function ExtractCtxManager<C>(layers: seq<Layer<C>>, idx: int): (r: Result<C, LookupError>)
    ensures |layers| <= idx ==> r == Failure(ValueError(RangeMessage(idx, |layers|)))
    ensures idx < -|layers| ==> r == Failure(IndexError)
    ensures r.Success? <==>
      && -|layers| <= idx < |layers|
      && layers[Position(idx, |layers|).value].selfAttn.Some?
      && layers[Position(idx, |layers|).value].selfAttn.value.pastKeyValue.Some?
    ensures -|layers| <= idx < |layers| && layers[Position(idx, |layers|).value].selfAttn.None? ==>
      r == Failure(ValueError(NoSelfAttnMessage(idx)))
    ensures -|layers| <= idx < |layers| && layers[Position(idx, |layers|).value].selfAttn.Some?
            && layers[Position(idx, |layers|).value].selfAttn.value.pastKeyValue.None? ==>
      r == Failure(ValueError(NoCacheMessage(idx)))
    ensures r.Success? ==>
      r.value == layers[Position(idx, |layers|).value].selfAttn.value.pastKeyValue.value
  {
    if |layers| <= idx then Failure(ValueError(RangeMessage(idx, |layers|)))
    else
      match Position(idx, |layers|)
      case None => Failure(IndexError)
      case Some(p) =>
        match layers[p].selfAttn
        case None => Failure(ValueError(NoSelfAttnMessage(idx)))
        case Some(attn) =>
          match attn.pastKeyValue
          case None => Failure(ValueError(NoCacheMessage(idx)))
          case Some(c) => Success(c)
  }

  /** A negative index reaches the same layer as its non-negative counterpart:
      the same cache manager, or the same kind of failure. */
  lemma NegativeIndexLikePositive<C>(layers: seq<Layer<C>>, idx: int)
    requires -|layers| <= idx < 0
    ensures var neg, pos := ExtractCtxManager(layers, idx), ExtractCtxManager(layers, idx + |layers|);
      && neg.Success? == pos.Success?
      && (neg.Success? ==> neg.value == pos.value)
      && (neg.Failure? ==> neg.error.ValueError? && pos.error.ValueError?)
  {
  }
}
