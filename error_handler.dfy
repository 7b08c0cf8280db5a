/** The API's error middleware: every error a controller passes on, and the error made for
    an unmatched route, becomes a JSON reply with `success: false`. */
module ErrorHandler {
  import opened Text
  import opened Http

  /** The parts of a thrown error the handler looks at. `fieldMessages` are the messages
      of a Mongoose ValidationError's `errors`, in order; `statusCode` is None when the
      error carries none. */
  datatype Error = Error(
    name: string,
    code: Option<int>,
    statusCode: Option<nat>,
    message: string,
    fieldMessages: seq<string>)

  /** The status and message the handler settles on. */
  datatype Outcome = Outcome(status: nat, message: string)

  const ResourceNotFound: string := "Recurso não encontrado"
  const DuplicateResource: string := "Recurso duplicado"
  const InternalError: string := "Erro interno do servidor"
  const RouteNotFound: string := "Rota não encontrada - "

  /** The duplicate key code of the database server. */
  const DuplicateKeyCode: int := 11000

  /** `message || 'Erro interno do servidor'` */
  function MessageOrDefault(m: string): (r: string)
    ensures r != ""
    ensures m != "" ==> r == m
    ensures m == "" ==> r == InternalError
  {
    if m != "" then m else InternalError
  }

  /** `statusCode || fallback`: a missing or zero status is falsy. */
  function StatusOr(statusCode: Option<nat>, fallback: nat): (r: nat)
    ensures statusCode.Some? && statusCode.value != 0 ==> r == statusCode.value
    ensures statusCode.None? || statusCode.value == 0 ==> r == fallback
  {
    if statusCode.Some? && statusCode.value != 0 then statusCode.value else fallback
  }

  /** What the handler answers, by precedence: a duplicate key wins over everything, a
      ValidationError and a CastError replace the error's own status and message, and any
      other error keeps its status (500 without one) and its message (a default without one). */
  function Classify(err: Error): (o: Outcome)
    ensures o.message != ""
    ensures err.code == Some(DuplicateKeyCode) ==> o == Outcome(400, DuplicateResource)
    ensures o.status == 404 <==>
              err.code != Some(DuplicateKeyCode) && err.name != "ValidationError"
              && (err.name == "CastError" || StatusOr(err.statusCode, 500) == 404)
    ensures err.code != Some(DuplicateKeyCode) && err.name == "ValidationError" ==>
              o.status == 400 && (Join(err.fieldMessages, ", ") != "" ==> o.message == Join(err.fieldMessages, ", "))
    ensures err.code != Some(DuplicateKeyCode) && err.name == "CastError" ==> o == Outcome(404, ResourceNotFound)
    ensures err.code != Some(DuplicateKeyCode) && err.name != "ValidationError" && err.name != "CastError" ==>
              && (err.statusCode.Some? && err.statusCode.value != 0 ==> o.status == err.statusCode.value)
              && (err.statusCode.None? ==> o.status == 500)
              && (err.message != "" ==> o.message == err.message)
              && (err.message == "" ==> o.message == InternalError)
  {
    if err.code == Some(DuplicateKeyCode) then Outcome(400, DuplicateResource)
    else if err.name == "ValidationError" then Outcome(400, MessageOrDefault(Join(err.fieldMessages, ", ")))
    else if err.name == "CastError" then Outcome(404, ResourceNotFound)
    else Outcome(StatusOr(err.statusCode, 500), MessageOrDefault(err.message))
  }

  /** The same classification, except that an error without a status of its own keeps the
      status already set on the response (`preset`) when that is not the default 200. */
  function ClassifyAt(err: Error, preset: nat): (o: Outcome)
    ensures preset == 200 ==> o == Classify(err)
    ensures (&& err.code != Some(DuplicateKeyCode) && err.name != "ValidationError"
             && err.name != "CastError" && StatusOr(err.statusCode, 0) == 0 && preset != 200)
            ==> o.status == preset
  {
    var o := Classify(err);
    if err.code == Some(DuplicateKeyCode) || err.name == "ValidationError" || err.name == "CastError" then o
    else o.(status := StatusOr(err.statusCode, if preset != 200 then preset else 500))
  }

  function Respond(o: Outcome): Reply
  {
    Reply(o.status, false, o.message, NoData)
  }

  /** `errorHandler(err, req, res, next)`: copies the error, lets each recognised kind
      replace status and message in turn, then answers. `preset` is the status already set
      on the response. */
  method HandleError(err: Error, preset: nat) returns (reply: Reply)
    ensures reply == Respond(ClassifyAt(err, preset))
    ensures !reply.success && reply.payload == NoData && reply.message != ""
  {
    var message := err.message;
    var statusCode := err.statusCode;
    if err.name == "CastError" {
      message, statusCode := ResourceNotFound, Some(404);
    }
    if err.name == "ValidationError" {
      message, statusCode := Join(err.fieldMessages, ", "), Some(400);
    }
    if err.code == Some(DuplicateKeyCode) {
      message, statusCode := DuplicateResource, Some(400);
    }
    var fallback := if preset != 200 then preset else 500;
    reply := Reply(StatusOr(statusCode, fallback), false, MessageOrDefault(message), NoData);
  }

  /** `notFound`: the error made for a request no route matched; it has no status code of
      its own (the 404 goes on the response instead). */
  function NotFound(url: string): (err: Error)
    ensures err.statusCode.None? && err.code.None? && err.message == RouteNotFound + url
  {
    Error("Error", None, None, RouteNotFound + url, [])
  }

  /** As the handler is written, an unmatched route is answered with 500, not 404: the
      error has no status code and the status set on the response is not consulted. */
  lemma UnmatchedRouteAnswers500(url: string)
    ensures Classify(NotFound(url)) == Outcome(500, RouteNotFound + url)
  {
    assert RouteNotFound + url != "";
  }

  /** Consulting the response's status, an unmatched route is answered with 404 and the
      route's message. */
  lemma UnmatchedRouteAnswers404(url: string)
    ensures ClassifyAt(NotFound(url), 404) == Outcome(404, RouteNotFound + url)
  {
    UnmatchedRouteAnswers500(url);
  }

  /** An unmatched route: `notFound` sets 404 on the response and passes its error on. */
  method UnmatchedRoute(url: string) returns (reply: Reply)
    ensures reply == Reply(404, false, RouteNotFound + url, NoData)
  {
    UnmatchedRouteAnswers404(url);
    reply := HandleError(NotFound(url), 404);
  }
}
