/**
 * What comes back from the provider, and how the tools' two `except` clauses turn a failed
 * exchange into an error record.
 */
module Responses {
  import opened Wrappers
  import opened Decimal
  import opened Json

  /**
   * The outcome of the one GET a tool issues: no reply at all (connection failure, timeout),
   * or a reply with its status code, its raw body text and that body decoded as JSON
   * (None when the body is not JSON).
   */
  datatype Upstream =
    | Unreachable(message: string)
    | Reply(status: nat, body: string, decoded: Option<Json>)

  /** The `"error"` entry of an error record: a fixed text, or `str(e)` of a caught exception. */
  datatype Message = Literal(text: string) | Exception(fault: Fault)

  /**
   * The dict a tool returns: the normalised record, or `{"error": ...}` with a
   * `"details"` entry for HTTP status errors.
   */
  datatype Response =
    | Record(fields: map<string, Json>)
    | ErrorRecord(error: Message, details: Option<string>)

  /** What the `try` block of a tool can raise. */
  datatype Caught =
    | StatusError(status: nat, body: string)   // httpx.HTTPStatusError from raise_for_status
    | Thrown(fault: Fault)                     // any other Exception

  /** The statuses `raise_for_status` lets through. */
  predicate IsSuccessStatus(status: nat) {
    200 <= status < 300
  }

  /** The body of a reply as `raise_for_status()` followed by `response.json()` yields it. */
  function Receive(u: Upstream): (r: Result<Json, Caught>)
    ensures r.Success? <==> u.Reply? && IsSuccessStatus(u.status) && u.decoded.Some?
    ensures r.Success? ==> r.value == u.decoded.value
    ensures r.Failure? && r.error.StatusError? <==> u.Reply? && !IsSuccessStatus(u.status)
    ensures r.Failure? && r.error.StatusError? ==> r.error == StatusError(u.status, u.body)
    ensures u.Unreachable? ==> r == Failure(Thrown(Transport(u.message)))
  {
    match u
    case Unreachable(message) => Failure(Thrown(Transport(message)))
    case Reply(status, body, decoded) =>
      if !IsSuccessStatus(status) then Failure(StatusError(status, body))
      else if decoded.None? then Failure(Thrown(Undecodable))
      else Success(decoded.value)
  }

  function HttpErrorText(status: nat): string {
    "HTTP error: " + DecimalString(status)
  }

  /** The two `except` clauses every tool ends with. */
  function ErrorFor(caught: Caught): (r: Response)
    ensures r.ErrorRecord?
    ensures r.details.Some? <==> caught.StatusError?
    ensures caught.StatusError? ==> r.details.value == caught.body
    ensures caught.Thrown? ==> r.error == Exception(caught.fault)
  {
    match caught
    case StatusError(status, body) => ErrorRecord(Literal(HttpErrorText(status)), Some(body))
    case Thrown(fault) => ErrorRecord(Exception(fault), None)
  }

  /** The record a projection builds, or the error record for the exception it raised. */
  function Finish(projected: Result<map<string, Json>, Fault>): (r: Response)
    ensures r.Record? <==> projected.Success?
    ensures r.Record? ==> r.fields == projected.value
    ensures r.ErrorRecord? ==> r == ErrorRecord(Exception(projected.error), None)
  {
    match projected
    case Success(fields) => Record(fields)
    case Failure(fault) => ErrorRecord(Exception(fault), None)
  }

  /**
   * A status other than 2xx becomes `{"error": "HTTP error: <status>", "details": <body>}`,
   * with the body as raw text whether or not it is JSON; the status can be read back from the text.
   */
  lemma HttpStatusMapping(status: nat, body: string, decoded: Option<Json>)
    requires !IsSuccessStatus(status)
    ensures var r := Receive(Reply(status, body, decoded));
      r.Failure? && ErrorFor(r.error) == ErrorRecord(Literal(HttpErrorText(status)), Some(body))
    ensures HttpErrorText(status)[..12] == "HTTP error: "
    ensures var digits := HttpErrorText(status)[12..];
      (forall i :: 0 <= i < |digits| ==> IsDigit(digits[i])) && ParseDecimal(digits) == status
  {
    ParseDecimalString(status);
    assert HttpErrorText(status)[12..] == DecimalString(status);
  }

  /** Only an HTTP status error carries details, and different statuses give different texts. */
  lemma ErrorRecordsDistinguishStatus(a: Caught, b: Caught)
    ensures ErrorFor(a).details.Some? <==> a.StatusError?
    ensures a.StatusError? && b.StatusError? && ErrorFor(a) == ErrorFor(b) ==> a == b
  {
    if a.StatusError? && b.StatusError? && ErrorFor(a) == ErrorFor(b) {
      assert HttpErrorText(a.status)[12..] == DecimalString(a.status);
      assert HttpErrorText(b.status)[12..] == DecimalString(b.status);
      DecimalStringInjective(a.status, b.status);
    }
  }

  /** A transport failure or an undecodable successful reply becomes the generic error record. */
  lemma GenericFailures(message: string, status: nat, body: string)
    ensures var r := Receive(Unreachable(message));
      r.Failure? && ErrorFor(r.error) == ErrorRecord(Exception(Transport(message)), None)
    ensures IsSuccessStatus(status) ==>
      var r := Receive(Reply(status, body, None));
      r.Failure? && ErrorFor(r.error) == ErrorRecord(Exception(Undecodable), None)
  {
  }
}
