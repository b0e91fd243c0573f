/** The queued job that places one NBN order: it posts the application's
    service address and plan name to the wholesale ordering endpoint and
    records the outcome on the application with a single `update()`. */
module Jobs {
  import opened Records

  /** A JSON scalar as it appears in the request body. */
  datatype Json = JString(s: string) | JNull

  /** The request body: a JSON object from key to value. */
  type Payload = map<string, Json>

  /** The six keys of the request body; the last one has a space, not an underscore. */
  const PayloadKeys: set<string> := {"address_1", "address_2", "city", "state", "postcode", "plan name"}

  function ToJson(v: Option<string>): (j: Json)
    ensures j == JNull <==> v == None
    ensures v.Some? ==> j == JString(v.value)
  {
    match v
    case Some(s) => JString(s)
    case None => JNull
  }

  /** The body handed to `Http::post`: each address column and the plan's
      name under its own key, copied unchanged. */
  function PayloadOf(a: Application): (p: Payload)
    ensures p.Keys == PayloadKeys
    ensures p["address_1"] == JString(a.address1)
    ensures p["address_2"] == ToJson(a.address2)
    ensures p["city"] == JString(a.city) && p["state"] == JString(a.state)
    ensures p["postcode"] == JString(a.postcode)
    ensures p["plan name"] == JString(a.plan.name)
  {
    map["address_1" := JString(a.address1),
        "address_2" := ToJson(a.address2),
        "city" := JString(a.city),
        "state" := JString(a.state),
        "postcode" := JString(a.postcode),
        "plan name" := JString(a.plan.name)]
  }

  /** What the call to the endpoint produced: an exception thrown by the HTTP
      client (connection refused, timeout), or a response with its status
      code and the body's `status` and `id` values. A numeric `id` is
      represented by its text; a field is None when the body has no such key
      or holds null there, including a body that is not JSON. */
  datatype Outcome =
    | Threw(message: string)
    | Responded(code: int, statusField: Option<string>, idField: Option<string>)

  /** Laravel's `successful()`: the "Successful 2xx" class of status codes of
      section 15.3 of RFC 9110. */
  predicate Successful(code: int) {
    200 <= code < 300
  }

  /** The body status that means the order was placed; compared with `===`. */
  const SuccessToken: string := "Successful"

  /** The endpoint accepted the order: a 2xx response whose status is the token. */
  predicate Accepted(o: Outcome) {
    o.Responded? && Successful(o.code) && o.statusField == Some(SuccessToken)
  }

  /** The attribute array written on every failure path: status only. */
  const MarkFailed: Update := Update(OrderFailed, Untouched)

  /** The single `update()` the job applies for an outcome. */
  function UpdateFor(o: Outcome): (u: Update)
    ensures u.status == Complete || u.status == OrderFailed
    ensures u.status == Complete <==> Accepted(o)
    ensures u.orderId.Write? <==> u.status == Complete
    ensures u.orderId.Write? ==> o.Responded? && u.orderId.value == o.idField
  {
    match o
    case Threw(_) => MarkFailed
    case Responded(code, statusField, idField) =>
      if Successful(code) && statusField == Some(SuccessToken) then Update(Complete, Write(idField))
      else MarkFailed
  }

  const FailureMessage: string := "NBN order processing failed"

  /** One `Log::error` call: the message and its context (application id, error). */
  datatype LogEntry = LogEntry(message: string, applicationId: nat, error: string)

  /** The error channel of the application log. */
  class ErrorLog {
    var entries: seq<LogEntry>

    constructor ()
      ensures entries == []
    {
      entries := [];
    }

    method Error(e: LogEntry)
      modifies this
      ensures entries == old(entries) + [e]
    {
      entries := entries + [e];
    }
  }

  /** ProcessNbnOrdersJob: carries one application; `Handle` makes one order
      attempt for it. The endpoint stands for the configured URL behind
      `Http::post`; every behaviour of the real endpoint is some such function,
      and it is called exactly once. */
  class ProcessNbnOrdersJob {
    const application: Application

    constructor (application: Application)
      ensures this.application == application
    {
      this.application := application;
    }

    /** The job never reads the record's current status: the new status and
        order id depend only on the outcome (and, for the order id on a
        failure, on the id already held). Exceptions are caught and logged. */
    method Handle(endpoint: Payload -> Outcome, log: ErrorLog)
      modifies application, log
      ensures application.status == UpdateFor(endpoint(PayloadOf(application))).status
      ensures application.orderId
              == OrderIdAfter(UpdateFor(endpoint(PayloadOf(application))), old(application.orderId))
      ensures application.status == Complete || application.status == OrderFailed
      ensures !IsReadyForNbnOrdering(application)
      ensures endpoint(PayloadOf(application)).Threw? ==>
                log.entries == old(log.entries)
                  + [LogEntry(FailureMessage, application.id, endpoint(PayloadOf(application)).message)]
      ensures endpoint(PayloadOf(application)).Responded? ==> log.entries == old(log.entries)
    {
      var outcome := endpoint(PayloadOf(application));
      match outcome {
        case Threw(message) =>
          log.Error(LogEntry(FailureMessage, application.id, message));
          application.Update(MarkFailed);
        case Responded(_, _, _) =>
          application.Update(UpdateFor(outcome));
      }
    }
  }

  /** The endpoint's documented success response completes the order with its id. */
  lemma SuccessfulResponseCompletes(prior: Option<string>)
    ensures UpdateFor(Responded(200, Some("Successful"), Some("ORD000000000000"))).status == Complete
    ensures OrderIdAfter(UpdateFor(Responded(200, Some("Successful"), Some("ORD000000000000"))), prior)
            == Some("ORD000000000000")
  {
  }

  /** A 2xx response with any other status fails the order and leaves the
      order id as it was (null stays null). */
  lemma OtherStatusFails(code: int, statusField: Option<string>, idField: Option<string>, prior: Option<string>)
    requires Successful(code) && statusField != Some(SuccessToken)
    ensures UpdateFor(Responded(code, statusField, idField)) == MarkFailed
    ensures OrderIdAfter(UpdateFor(Responded(code, statusField, idField)), prior) == prior
  {
  }

  /** A response outside 2xx (503, say) fails the order whatever its body says. */
  lemma UnsuccessfulCodeFails(code: int, statusField: Option<string>, idField: Option<string>)
    requires !Successful(code)
    ensures UpdateFor(Responded(code, statusField, idField)) == MarkFailed
  {
  }

  /** Before the job runs, a record awaiting its order holds no order id; if the
      endpoint keeps its promise of an id on success, afterwards the record
      holds an order id exactly when it is Complete. */
  lemma OrderIdExactlyWhenComplete(o: Outcome, prior: Option<string>)
    requires prior == None
    requires Accepted(o) ==> o.idField.Some?
    ensures OrderIdAfter(UpdateFor(o), prior).Some? <==> UpdateFor(o).status == Complete
  {
  }

  /** The code copies `json('id')` as it is: a success response without an id
      completes the record with a null order id. */
  lemma SuccessWithoutIdCompletesWithNullOrderId(code: int, prior: Option<string>)
    requires Successful(code)
    ensures UpdateFor(Responded(code, Some(SuccessToken), None)).status == Complete
    ensures OrderIdAfter(UpdateFor(Responded(code, Some(SuccessToken), None)), prior) == None
  {
  }
}
