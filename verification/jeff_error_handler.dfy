/**
 * The error middleware of the standalone server (jeffspeaksnode/src/middleware/errorHandler.ts):
 * the AppError class with its default status, the global error handler, which hides messages
 * and stacks outside development, and the 404 handler.
 */
module JeffErrorHandler {
  import opened Wrappers
  import opened JsValue
  import opened Http

  /** `new AppError(message, status = 500, details)`. */
  function NewAppError(message: string, status: Option<int>, details: Option<Json>): (e: AppError)
    ensures e.status == status.GetOr(500)
    ensures e.message == message && e.details == details
  {
    AppError(message, status.GetOr(500), details)
  }

  /** What reaches the handler: an AppError instance, or any other error; both with their stack text. */
  datatype ErrorValue = AppErrorValue(error: AppError, stack: string) | OtherError(message: string, stack: string)

  /** The request fields the handler reports. */
  datatype RequestInfo = RequestInfo(url: string, verb: string, body: Option<Json>)

  /** The log line, status and JSON body the handler produces. */
  datatype ErrorReply = ErrorReply(log: LogEntry, status: int, body: Json)

  const GenericMessage := "An error occurred processing your request"
  const NotFoundMessage := "Endpoint not found"

  /** `process.env.NODE_ENV === 'development'`. */
  predicate Development(nodeEnv: Option<string>) {
    nodeEnv == Some("development")
  }

  function MessageOf(err: ErrorValue): string {
    match err
    case AppErrorValue(e, _) => e.message
    case OtherError(m, _) => m
  }

  /** The details an AppError carries when they are truthy; nothing otherwise. */
  function ShownDetails(err: ErrorValue): Option<Json> {
    if err.AppErrorValue? && TruthyOpt(err.error.details) then err.error.details else None
  }

  /** The status: an AppError's own, else 500. */
  function StatusOf(err: ErrorValue): (s: int)
    ensures err.AppErrorValue? ==> s == err.error.status
    ensures err.OtherError? ==> s == 500
  {
    if err.AppErrorValue? then err.error.status else 500
  }

  /** `errorHandler(err, req, res, next)` with `now` the ISO timestamp of the moment. */
  function ErrorHandler(err: ErrorValue, req: RequestInfo, nodeEnv: Option<string>, now: string): (r: ErrorReply)
    ensures r.status == (if err.AppErrorValue? then err.error.status else 500)
    ensures r.log.level == Error
    ensures ("url", Some(Str(req.url))) in r.log.context && ("method", Some(Str(req.verb))) in r.log.context
    ensures r.body.Obj? && |r.body.fields| >= 2 && r.body.fields[0] == Field("error", Bool(true))
    ensures !Development(nodeEnv) ==> r.body.fields[1] == Field("message", Str(GenericMessage))
    ensures !Development(nodeEnv) ==> forall f :: f in r.body.fields ==> f.key != "stack"
  {
    var dev := Development(nodeEnv);
    var log := LogEntry(Error, "Error:",
      [("message", Some(Str(MessageOf(err)))),
       ("stack", if dev then Some(Str(err.stack)) else None),
       ("url", Some(Str(req.url))),
       ("method", Some(Str(req.verb))),
       ("body", req.body),
       ("timestamp", Some(Str(now)))]);
    var message := if dev then MessageOf(err) else GenericMessage;
    var body := Obj([Field("error", Bool(true)), Field("message", Str(message))] +
                    Present("details", ShownDetails(err)) +
                    (if dev then [Field("stack", Str(err.stack))] else []));
    ErrorReply(log, StatusOf(err), body)
  }

  /**
   * Every error body says `error: true`; outside development it carries the generic message and
   * no stack, in development the error's own message and its stack.
   */
  lemma {:induction false} BodyShape(err: ErrorValue, req: RequestInfo, nodeEnv: Option<string>, now: string)
    ensures var b := ErrorHandler(err, req, nodeEnv, now).body;
            && b.Obj?
            && Lookup(b.fields, "error") == Some(Bool(true))
            && Lookup(b.fields, "message") == Some(Str(if Development(nodeEnv) then MessageOf(err) else GenericMessage))
            && Lookup(b.fields, "details") == ShownDetails(err)
            && Lookup(b.fields, "stack") == (if Development(nodeEnv) then Some(Str(err.stack)) else None)
  {
    var dev := Development(nodeEnv);
    var message := if dev then MessageOf(err) else GenericMessage;
    var head := [Field("error", Bool(true)), Field("message", Str(message))];
    var details := Present("details", ShownDetails(err));
    var stack := if dev then [Field("stack", Str(err.stack))] else [];
    var fields := head + details + stack;
    assert ErrorHandler(err, req, nodeEnv, now).body == Obj(fields);
    assert head[..1] == [Field("error", Bool(true))];
    assert [Field("error", Bool(true))][..0] == [];
    assert Lookup(head, "error") == Some(Bool(true));
    assert Lookup(head, "message") == Some(Str(message));
    assert !HasKey(head, "details") && !HasKey(head, "stack");
    var withDetails := head + details;
    if details != [] {
      assert withDetails[..2] == head;
    } else {
      assert withDetails == head;
    }
    assert Lookup(withDetails, "error") == Some(Bool(true));
    assert Lookup(withDetails, "message") == Some(Str(message));
    assert Lookup(withDetails, "details") == ShownDetails(err);
    assert !HasKey(withDetails, "stack");
    if dev {
      assert fields[..|withDetails|] == withDetails;
    } else {
      assert fields == withDetails;
    }
  }

  /** Outside development the thrown message and the stack never reach the client. */
  lemma ProductionHidesInternals(err: ErrorValue, req: RequestInfo, nodeEnv: Option<string>, now: string)
    requires !Development(nodeEnv)
    ensures var r := ErrorHandler(err, req, nodeEnv, now);
            Lookup(r.body.fields, "message") == Some(Str(GenericMessage)) && !HasKey(r.body.fields, "stack") &&
            r.log.context[1] == ("stack", None)
  {
    BodyShape(err, req, nodeEnv, now);
  }

  /** Only an AppError chooses the status or adds details; any other error is a 500 without details. */
  lemma OtherErrorsAre500(message: string, stack: string, req: RequestInfo, nodeEnv: Option<string>, now: string)
    ensures var r := ErrorHandler(OtherError(message, stack), req, nodeEnv, now);
            r.status == 500 && !HasKey(r.body.fields, "details")
  {
    BodyShape(OtherError(message, stack), req, nodeEnv, now);
  }

  /** An AppError keeps its status; its details are shown exactly when they are truthy. */
  lemma AppErrorKeepsStatus(e: AppError, stack: string, req: RequestInfo, nodeEnv: Option<string>, now: string)
    ensures var r := ErrorHandler(AppErrorValue(e, stack), req, nodeEnv, now);
            r.status == e.status && (HasKey(r.body.fields, "details") <==> TruthyOpt(e.details))
  {
    BodyShape(AppErrorValue(e, stack), req, nodeEnv, now);
  }

  /** `notFoundHandler(req, res)`: 404 with the requested path. */
  function NotFoundHandler(url: string): (r: (int, Json))
    ensures r.0 == 404
  {
    (404, Obj([Field("error", Bool(true)), Field("message", Str(NotFoundMessage)), Field("path", Str(url))]))
  }

  /** The 404 body reads back the not-found message and the requested path. */
  lemma NotFoundBody(url: string)
    ensures var b := NotFoundHandler(url).1;
            b.Obj? && Lookup(b.fields, "error") == Some(Bool(true)) &&
            Lookup(b.fields, "message") == Some(Str(NotFoundMessage)) && Lookup(b.fields, "path") == Some(Str(url))
  {
    var fields := [Field("error", Bool(true)), Field("message", Str(NotFoundMessage)), Field("path", Str(url))];
    var two := [Field("error", Bool(true)), Field("message", Str(NotFoundMessage))];
    assert NotFoundHandler(url).1 == Obj(fields);
    assert fields[..2] == two && two[..1] == [Field("error", Bool(true))];
    assert Lookup(fields, "error") == Lookup(two, "error") == Lookup([Field("error", Bool(true))], "error");
  }
}
