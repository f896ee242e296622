/**
 * `extractPipelineOutput` of app/src/utils/extractOutput.ts: the same precedence as the older
 * `PipelineOutput.extract`, written as nested checks inside a try block, with a console warning
 * on the fallback path.
 */
module ExtractOutput {
  import opened Wrappers
  import opened JsValue
  import opened Http
  import PipelineOutput

  const FallbackWarning := "Unexpected response structure, returning full data"

  /** What the call returns, with the console lines it writes. */
  datatype Extraction = Extraction(value: Json, logs: seq<LogEntry>)

  /**
   * `extractPipelineOutput(responseData)`. Property reads on a parsed JSON value cannot throw, so
   * the catch branch, which would return the body as well, is never taken.
   */
  function ExtractPipelineOutput(body: Json): (r: Extraction)
    ensures r.value == PipelineOutput.Extract(body)
    ensures r.logs == [] <==> FirstObject(body).Some?
    ensures r.logs != [] ==> r.value == body && r.logs == [LogEntry(Warn, FallbackWarning, [])]
  {
    var objects := ObjectsOf(body);
    if objects.Some? && FirstEntry(objects.value).Some? then
      var first := FirstEntry(objects.value).value;
      var text := Prop(first, "text");
      if TruthyOpt(text) then Extraction(text.value, [])
      else Extraction(first, [])
    else
      Extraction(body, [LogEntry(Warn, FallbackWarning, [])])
  }

  /** When `data.objects` has a key, the first object's truthy `text` comes back, else the object itself. */
  lemma FirstObjectDecides(k: string, v: Json, rest: seq<Field>)
    requires !IsArrayIndex(k)
    requires forall i :: 0 <= i < |rest| ==> !IsArrayIndex(rest[i].key) && rest[i].key != k
    ensures ExtractPipelineOutput(ObjectsBody([Field(k, v)] + rest)).logs == []
    ensures ExtractPipelineOutput(ObjectsBody([Field(k, v)] + rest)).value ==
              (if TruthyOpt(Prop(v, "text")) then Prop(v, "text").value else v)
  {
    FirstObjectOfObjectsBody(k, v, rest);
  }
}
