/** The `getSwapRequest` chat tool (lib/ai/tools/get-swap-request.ts): it streams a
    structured object from the language model and, for every partial object that already
    has both symbols and a non-zero amount, writes a swap request to the chat's data stream,
    then writes one "finish" part. */
module SwapRequest {
  import opened Common

  const CREATED: string := "A swap request was created."

  /** A partial object from the model's stream: fields not yet produced are None. */
  datatype SwapObject = SwapObject(sourceSymbol: Option<string>, targetSymbol: Option<string>, amount: Option<real>)

  /** One element of the stream: an "object" delta, or a delta of another type. */
  datatype Delta = ObjectDelta(obj: SwapObject) | OtherDelta(deltaType: string)

  /** A part written to the data stream. */
  datatype DataPart = SwapRequestPart(sourceSymbol: string, targetSymbol: string, amount: real) | FinishPart

  datatype ToolResult = ToolResult(id: string, content: string)

  /** A delta that yields a swap request: an object whose symbols are non-empty and whose
      amount is present and non-zero. */
  predicate Qualifies(d: Delta) {
    && d.ObjectDelta?
    && Truthy(d.obj.sourceSymbol) && Truthy(d.obj.targetSymbol)
    && d.obj.amount.Some? && d.obj.amount.value != 0.0
  }

  /** The swap requests a stream yields, in stream order. */
  function SwapRequests(deltas: seq<Delta>): (r: seq<DataPart>)
    ensures |r| <= |deltas|
    ensures forall k :: 0 <= k < |r| ==>
      && r[k].SwapRequestPart?
      && r[k].sourceSymbol != "" && r[k].targetSymbol != "" && r[k].amount != 0.0
    ensures (forall k :: 0 <= k < |deltas| ==> !Qualifies(deltas[k])) <==> r == []
  {
    if deltas == [] then []
    else
      var d := deltas[0];
      var head :=
        if Qualifies(d) then [SwapRequestPart(d.obj.sourceSymbol.value, d.obj.targetSymbol.value, d.obj.amount.value)]
        else [];
      head + SwapRequests(deltas[1..])
  }

  /** The requests of a concatenated stream are the requests of each part, in order. */
  lemma {:induction false} SwapRequestsAppend(a: seq<Delta>, b: seq<Delta>)
    ensures SwapRequests(a + b) == SwapRequests(a) + SwapRequests(b)
  {
    if a == [] {
      assert a + b == b;
    } else {
      assert (a + b)[0] == a[0];
      assert (a + b)[1..] == a[1..] + b;
      SwapRequestsAppend(a[1..], b);
    }
  }

  /** A single delta yields exactly the request carrying its three values, or nothing. */
  lemma SwapRequestsSingle(d: Delta)
    ensures Qualifies(d) ==>
      SwapRequests([d]) == [SwapRequestPart(d.obj.sourceSymbol.value, d.obj.targetSymbol.value, d.obj.amount.value)]
    ensures !Qualifies(d) ==> SwapRequests([d]) == []
  {
    assert [d][1..] == [];
  }

  /** The chat's data stream, as the parts written to it so far. */
  class DataStreamWriter {
    var parts: seq<DataPart>

    constructor ()
      ensures parts == []
    {
      parts := [];
    }

    method WriteData(p: DataPart)
      modifies this
      ensures parts == old(parts) + [p]
    {
      parts := parts + [p];
    }
  }

  /** `execute`: `id` is the UUID generated on entry and `deltas` the model's stream. */
  method Execute(id: string, deltas: seq<Delta>, dataStream: DataStreamWriter) returns (result: ToolResult)
    modifies dataStream
    ensures dataStream.parts == old(dataStream.parts) + SwapRequests(deltas) + [FinishPart]
    ensures result == ToolResult(id, CREATED)
  {
    var i := 0;
    while i < |deltas|
      invariant 0 <= i <= |deltas|
      invariant dataStream.parts == old(dataStream.parts) + SwapRequests(deltas[..i])
    {
      var delta := deltas[i];
      if delta.ObjectDelta? {
        var obj := delta.obj;
        if Truthy(obj.sourceSymbol) && Truthy(obj.targetSymbol) && obj.amount.Some? && obj.amount.value != 0.0 {
          dataStream.WriteData(SwapRequestPart(obj.sourceSymbol.value, obj.targetSymbol.value, obj.amount.value));
        }
      }
      assert deltas[..i + 1] == deltas[..i] + [delta];
      SwapRequestsAppend(deltas[..i], [delta]);
      SwapRequestsSingle(delta);
      i := i + 1;
    }
    assert deltas[..i] == deltas;
    dataStream.WriteData(FinishPart);
    result := ToolResult(id, CREATED);
  }
}
