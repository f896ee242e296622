/**
 * `extractPipelineOutput` of the standalone server (jeffspeaksnode/src/utils/extractOutput.ts):
 * the first object's first truthy content field, else that object as text, else the whole body
 * as text. The frontend of that server expects a string.
 */
module JeffExtractOutput {
  import opened Wrappers
  import opened JsValue
  import opened Http

  const FallbackWarning := "Unexpected response structure, returning full data"

  /** The content fields of the first object, in the order they are tried. */
  const ContentFields: seq<string> := ["text", "content", "result", "response", "output"]

  datatype Extraction = Extraction(value: Json, logs: seq<LogEntry>)

  /** The first of `names` whose value on `v` is truthy: the reference for the ordered field checks. */
  function FirstTruthyField(v: Json, names: seq<string>): Option<Json> {
    if |names| == 0 then None
    else if TruthyOpt(Prop(v, names[0])) then Prop(v, names[0])
    else FirstTruthyField(v, names[1..])
  }

  /** FirstTruthyField gives the value of the earliest name whose value is truthy, and None only when there is none. */
  lemma {:induction false} FirstTruthyFieldSpec(v: Json, names: seq<string>)
    ensures var r := FirstTruthyField(v, names);
            r.Some? ==> (Truthy(r.value) &&
                         exists i :: 0 <= i < |names| && Prop(v, names[i]) == r &&
                                     forall j :: 0 <= j < i ==> !TruthyOpt(Prop(v, names[j])))
    ensures FirstTruthyField(v, names).None? <==> forall i :: 0 <= i < |names| ==> !TruthyOpt(Prop(v, names[i]))
  {
    if |names| == 0 || TruthyOpt(Prop(v, names[0])) {
      return;
    }
    FirstTruthyFieldSpec(v, names[1..]);
    var r := FirstTruthyField(v, names);
    assert r == FirstTruthyField(v, names[1..]);
    if r.Some? {
      var i :| 0 <= i < |names| - 1 && Prop(v, names[1..][i]) == r &&
               forall j :: 0 <= j < i ==> !TruthyOpt(Prop(v, names[1..][j]));
      assert Prop(v, names[i + 1]) == r;
      forall j | 0 <= j < i + 1
        ensures !TruthyOpt(Prop(v, names[j]))
      {
        if j > 0 {
          assert names[j] == names[1..][j - 1];
        }
      }
    } else {
      forall i | 0 <= i < |names|
        ensures !TruthyOpt(Prop(v, names[i]))
      {
        if i > 0 {
          assert names[i] == names[1..][i - 1];
        }
      }
    }
  }

  /** The values of the content fields on `first`, in the order they are tried. */
  function ContentValues(first: Json): seq<Option<Json>> {
    [Prop(first, "text"), Prop(first, "content"), Prop(first, "result"), Prop(first, "response"), Prop(first, "output")]
  }

  /** `typeof x === 'object' ? JSON.stringify(x, null, 2) : String(x)`. */
  function AsText(x: Json, codec: Codec): (r: Json)
    ensures r.Str?
    ensures TypeofObject(x) ==> r == Str(codec.pretty(x))
    ensures x.Str? ==> r == x
  {
    if TypeofObject(x) then Str(codec.pretty(x)) else Str(ToJsString(x, codec))
  }

  /**
   * `extractPipelineOutput(responseData)`. Property reads on a parsed JSON value cannot throw, so
   * the catch branch, which would return the same text as the fallback, is never taken.
   */
  function ExtractPipelineOutput(body: Json, codec: Codec): (r: Extraction)
    ensures r.value.Str? || (FirstObject(body).Some? && Some(r.value) in ContentValues(FirstObject(body).value))
    ensures r.logs == [] <==> FirstObject(body).Some?
    ensures FirstObject(body).None? ==> r == Extraction(AsText(body, codec), [LogEntry(Warn, FallbackWarning, [])])
  {
    var objects := ObjectsOf(body);
    if objects.Some? && FirstEntry(objects.value).Some? then
      var first := FirstEntry(objects.value).value;
      if TruthyOpt(Prop(first, "text")) then Extraction(Prop(first, "text").value, [])
      else if TruthyOpt(Prop(first, "content")) then Extraction(Prop(first, "content").value, [])
      else if TruthyOpt(Prop(first, "result")) then Extraction(Prop(first, "result").value, [])
      else if TruthyOpt(Prop(first, "response")) then Extraction(Prop(first, "response").value, [])
      else if TruthyOpt(Prop(first, "output")) then Extraction(Prop(first, "output").value, [])
      else if TypeofObject(first) then Extraction(Str(codec.pretty(first)), [])
      else Extraction(Str(ToJsString(first, codec)), [])
    else
      Extraction(AsText(body, codec), [LogEntry(Warn, FallbackWarning, [])])
  }

  /**
   * On the first object the fields are tried in the order text, content, result, response,
   * output and the first truthy one comes back; with none truthy the object comes back as text.
   */
  lemma FieldPrecedence(body: Json, codec: Codec)
    requires FirstObject(body).Some?
    ensures var first := FirstObject(body).value;
            match FirstTruthyField(first, ContentFields)
            case Some(v) => ExtractPipelineOutput(body, codec).value == v
            case None => ExtractPipelineOutput(body, codec).value == AsText(first, codec)
  {
    var first := FirstObject(body).value;
    var names := ContentFields;
    assert names[1..] == ["content", "result", "response", "output"];
    assert names[1..][1..] == ["result", "response", "output"];
    assert names[1..][1..][1..] == ["response", "output"];
    assert names[1..][1..][1..][1..] == ["output"];
    assert names[1..][1..][1..][1..][1..] == [];
    assert FirstTruthyField(first, ["output"]) ==
             if TruthyOpt(Prop(first, "output")) then Prop(first, "output") else None;
    assert FirstTruthyField(first, ["response", "output"]) ==
             if TruthyOpt(Prop(first, "response")) then Prop(first, "response") else FirstTruthyField(first, ["output"]);
    assert FirstTruthyField(first, ["result", "response", "output"]) ==
             if TruthyOpt(Prop(first, "result")) then Prop(first, "result") else FirstTruthyField(first, ["response", "output"]);
    assert FirstTruthyField(first, ["content", "result", "response", "output"]) ==
             if TruthyOpt(Prop(first, "content")) then Prop(first, "content") else FirstTruthyField(first, ["result", "response", "output"]);
  }

  /** `answers` is never consulted: a body holding only answers comes back as its JSON text. */
  lemma AnswersIgnored(answers: seq<Json>, codec: Codec)
    ensures ExtractPipelineOutput(Obj([Field("answers", Arr(answers))]), codec).value ==
              Str(codec.pretty(Obj([Field("answers", Arr(answers))])))
  {
  }

  /** Without `data.objects`, a null body is JSON text too, since `typeof null` is 'object'. */
  lemma NullBodyIsStringified(codec: Codec)
    ensures ExtractPipelineOutput(Null, codec) == Extraction(Str(codec.pretty(Null)), [LogEntry(Warn, FallbackWarning, [])])
  {
  }
}
