/**
 * `PipelineOutput.extract` of the api relay (app/src/api/utils/pipelineOutput): reduces the
 * pipeline's reply to one value by fixed precedence, a non-empty `answers` array first, then the
 * first object of `data.objects`, then the whole body.
 */
module ApiPipelineOutput {
  import opened Wrappers
  import opened JsValue

  /** The items of `body.answers` when it is an array with at least one element. */
  function NonEmptyAnswers(body: Json): (r: Option<seq<Json>>)
    ensures r.Some? ==> |r.value| > 0 && Prop(body, "answers") == Some(Arr(r.value))
  {
    match Prop(body, "answers")
    case Some(Arr(items)) => if |items| > 0 then Some(items) else None
    case _ => None
  }

  /** `firstObject?.text || firstObject`. */
  function TextOrObject(first: Json): (r: Json)
    ensures r == first || (Prop(first, "text") == Some(r) && Truthy(r))
    ensures TruthyOpt(Prop(first, "text")) ==> Some(r) == Prop(first, "text")
  {
    var text := Prop(first, "text");
    if TruthyOpt(text) then text.value else first
  }

  /** `PipelineOutput.extract(responseData)`. */
  function Extract(body: Json): (r: Json)
    ensures r == body
         || (NonEmptyAnswers(body).Some? && r == NonEmptyAnswers(body).value[0])
         || (FirstObject(body).Some? && (r == FirstObject(body).value ||
                                         (Prop(FirstObject(body).value, "text") == Some(r) && Truthy(r))))
    ensures NonEmptyAnswers(body).Some? ==> r == NonEmptyAnswers(body).value[0]
    ensures NonEmptyAnswers(body).None? && FirstObject(body).None? ==> r == body
    ensures NonEmptyAnswers(body).None? && FirstObject(body).Some? ==>
              var first := FirstObject(body).value;
              (TruthyOpt(Prop(first, "text")) ==> Some(r) == Prop(first, "text")) &&
              (!TruthyOpt(Prop(first, "text")) ==> r == first)
  {
    match NonEmptyAnswers(body)
    case Some(answers) => answers[0]
    case None =>
      match FirstObject(body)
      case None => body
      case Some(first) => TextOrObject(first)
  }

  /** A non-empty `answers` array wins whatever else the body holds, `data.objects` included. */
  lemma AnswersTakePriority(others: seq<Field>, answers: seq<Json>)
    requires |answers| > 0
    ensures Extract(Obj(others + [Field("answers", Arr(answers))])) == answers[0]
  {
    var fields := others + [Field("answers", Arr(answers))];
    assert fields[|fields| - 1].key == "answers";
  }

  /** Without a non-empty `answers` array and without a usable `data.objects`, the body comes back unchanged. */
  lemma WithoutStructureBodyIsReturned(body: Json)
    requires NonEmptyAnswers(body).None?
    requires ObjectsOf(body).None? || FirstEntry(ObjectsOf(body).value).None?
    ensures Extract(body) == body
  {
  }

  /** The null body, the empty object and an empty `data.objects` are returned as they are. */
  lemma DegenerateBodies()
    ensures Extract(Null) == Null
    ensures Extract(Obj([])) == Obj([])
    ensures Extract(ObjectsBody([])) == ObjectsBody([])
    ensures Extract(Obj([Field("data", Obj([]))])) == Obj([Field("data", Obj([]))])
  {
    assert FirstEntry(Obj([])) == None;
  }

  /**
   * Only the object under the first key of `data.objects` is read: its truthy `text`, or else
   * the object itself; the later objects play no part.
   */
  lemma FirstObjectDecides(k: string, v: Json, rest: seq<Field>)
    requires !IsArrayIndex(k)
    requires forall i :: 0 <= i < |rest| ==> !IsArrayIndex(rest[i].key) && rest[i].key != k
    ensures TruthyOpt(Prop(v, "text")) ==> Extract(ObjectsBody([Field(k, v)] + rest)) == Prop(v, "text").value
    ensures !TruthyOpt(Prop(v, "text")) ==> Extract(ObjectsBody([Field(k, v)] + rest)) == v
  {
    FirstObjectOfObjectsBody(k, v, rest);
  }

  /** A missing, null or empty `text` never comes back: the whole first object does. */
  lemma FalsyTextGivesObject(k: string, fields: seq<Field>, text: Json)
    requires !IsArrayIndex(k)
    requires text == Null || text == Str("")
    ensures Extract(ObjectsBody([Field(k, Obj(fields + [Field("text", text)]))])) == Obj(fields + [Field("text", text)])
  {
    var v := Obj(fields + [Field("text", text)]);
    FirstObjectOfObjectsBody(k, v, []);
    assert [Field(k, v)] + [] == [Field(k, v)];
    assert v.fields[|v.fields| - 1].key == "text";
  }
}
