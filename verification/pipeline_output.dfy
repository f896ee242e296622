/**
 * `PipelineOutput.extract` of the older Express relay (app/src/utils/pipelineOutput): the first
 * object of `data.objects`, its truthy `text` or the object itself, else the whole body. It has
 * no `answers` rule.
 */
module PipelineOutput {
  import opened Wrappers
  import opened JsValue
  import ApiPipelineOutput

  /** `PipelineOutput.extract(responseData)`. */
  function Extract(body: Json): (r: Json)
    ensures FirstObject(body).None? ==> r == body
    ensures FirstObject(body).Some? ==>
              var first := FirstObject(body).value;
              r == first || (Prop(first, "text") == Some(r) && Truthy(r))
    ensures FirstObject(body).Some? ==>
              var first := FirstObject(body).value;
              (TruthyOpt(Prop(first, "text")) ==> Some(r) == Prop(first, "text")) &&
              (!TruthyOpt(Prop(first, "text")) ==> r == first)
  {
    match FirstObject(body)
    case None => body
    case Some(first) =>
      var text := Prop(first, "text");
      if TruthyOpt(text) then text.value else first
  }

  /** On every body without a non-empty `answers` array, this copy and the api copy agree. */
  lemma AgreesWithApiCopy(body: Json)
    requires ApiPipelineOutput.NonEmptyAnswers(body).None?
    ensures Extract(body) == ApiPipelineOutput.Extract(body)
  {
  }

  /** The object under the first key decides: its truthy `text`, or else the object. */
  lemma FirstObjectDecides(k: string, v: Json, rest: seq<Field>)
    requires !IsArrayIndex(k)
    requires forall i :: 0 <= i < |rest| ==> !IsArrayIndex(rest[i].key) && rest[i].key != k
    ensures TruthyOpt(Prop(v, "text")) ==> Extract(ObjectsBody([Field(k, v)] + rest)) == Prop(v, "text").value
    ensures !TruthyOpt(Prop(v, "text")) ==> Extract(ObjectsBody([Field(k, v)] + rest)) == v
  {
    FirstObjectOfObjectsBody(k, v, rest);
  }

  /**
   * `answers` is never consulted: a body holding only answers comes back whole, where the api
   * copy returns the first answer.
   */
  lemma AnswersIgnored(answers: seq<Json>)
    requires |answers| > 0
    ensures Extract(Obj([Field("answers", Arr(answers))])) == Obj([Field("answers", Arr(answers))])
    ensures ApiPipelineOutput.Extract(Obj([Field("answers", Arr(answers))])) == answers[0]
    ensures Obj([Field("answers", Arr(answers))]) != answers[0]
  {
    var body := Obj([Field("answers", Arr(answers))]);
    assert ApiPipelineOutput.NonEmptyAnswers(body) == Some(answers);
    assert answers[0] < Arr(answers);
  }
}
