/**
 * The response normaliser: turns the parsed body of any Square Connect reply
 * into the gateway's uniform result (success flag, message, authorization,
 * standard error code), and turns a body that is not JSON into a synthetic
 * error body.
 */
module Normalizer {
  import opened Wrappers
  import opened Json
  import opened RubyStrings
  import opened RubyValues
  import opened ErrorCodes

  const ApprovedMessage := "Transaction Approved"
  const InvalidResponseMessage := "Invalid response received from the Square Connect API."
  const InvalidRequestCategory := "INVALID_REQUEST_ERROR"

  /** Square reports no AVS or CVV result; these are the fixed codes returned instead. */
  const AvsCode := "D"
  const CvvCode := "M"

  /** The uniform result handed back to the caller of every operation. */
  datatype Response = Response(
    success: bool,
    message: string,
    params: seq<Member>,
    authorization: Option<string>,
    errorCode: Option<StandardError>,
    avsCode: string,
    cvvCode: string,
    test: bool)

  /** The diagnostic put in a synthetic error: it embeds the inspected raw body. */
  function InvalidResponseDetail(raw: string): string
  {
    InvalidResponseMessage + "  " + "(The raw response returned by the API was " + Inspect(raw) + ")"
  }

  /** json_error: the one-error body standing in for a reply that is not JSON. */
  function JsonError(raw: string): (h: seq<Member>)
    ensures Keys(h) == ["errors"]
  {
    [Member("errors", JArray([JObject([
      Member("category", JString(InvalidRequestCategory)),
      Member("detail", JString(InvalidResponseDetail(raw)))])]))]
  }

  /**
   * parse: the parser's hash when the body is JSON, the synthetic error
   * otherwise. The parser is the JSON library, given as a parameter.
   */
  function Parse(body: string, parser: string -> Option<seq<Member>>): (h: seq<Member>)
    ensures parser(body).Some? ==> h == parser(body).value
    ensures parser(body).None? ==> h == JsonError(body)
  {
    match parser(body)
    case Some(parsed) => parsed
    case None => JsonError(body)
  }

  /** success_from: a reply succeeds exactly when it has no "errors" key. */
  predicate SuccessFrom(h: seq<Member>)
  {
    !HasKey(h, "errors")
  }

  /** `response['errors'][0]` */
  function FirstError(h: seq<Member>): Result<Json, Fault>
  {
    At0(Lookup(h, "errors"))
  }

  /**
   * message_from: "Transaction Approved" exactly for a reply without
   * errors; an error reply's message is never that text, since it holds
   * the ": " between category and detail.
   */
  function MessageFrom(h: seq<Member>): (r: Result<string, Fault>)
    ensures SuccessFrom(h) ==> r == Success(ApprovedMessage)
    ensures r.Success? && r.value == ApprovedMessage ==> SuccessFrom(h)
  {
    ApprovedHasNoColon();
    if SuccessFrom(h) then Success(ApprovedMessage)
    else
      var error :- FirstError(h);
      var category :- Field(error, "category");
      // `error['detail']` cannot raise once `error['category']` did not
      var detail := Field(error, "detail").value;
      Success(ToS(category) + ": " + ToS(detail))
  }

  /** `"#{tender['transaction_id']}|#{tender['id']}"` for each tender, in order. */
  function TenderPairs(tenders: seq<Json>): Result<seq<string>, Fault>
  {
    if tenders == [] then Success([])
    else
      var transactionId :- Field(tenders[0], "transaction_id");
      // `tender['id']` cannot raise once `tender['transaction_id']` did not
      var id := Field(tenders[0], "id").value;
      var rest :- TenderPairs(tenders[1..]);
      Success([ToS(transactionId) + "|" + ToS(id)] + rest)
  }

  /**
   * `tenders.map { |tender| ... }`: an array maps its elements; a hash
   * yields [key, value] arrays, which raise on a string index; any other
   * value has no `map`.
   */
  function MapTenders(tenders: Json): Result<seq<string>, Fault>
  {
    match tenders
    case JArray(items) => TenderPairs(items)
    case JObject(members) =>
      if members == [] then Success([])
      else Failure(TypeError("no implicit conversion of String into Integer"))
    case _ => Failure(NoMethodError("map"))
  }

  /**
   * authorization_from: only a reply without errors that holds a
   * transaction carries an authorization, reading it can raise only on such
   * a reply, and a transaction whose tenders are objects always yields one.
   */
  function AuthorizationFrom(h: seq<Member>): (r: Result<Option<string>, Fault>)
    ensures r.Success? && r.value.Some? ==> SuccessFrom(h) && Truthy(Lookup(h, "transaction"))
    ensures r.Failure? ==> SuccessFrom(h) && Truthy(Lookup(h, "transaction"))
    ensures SuccessFrom(h) && Lookup(h, "transaction").JObject?
         && Lookup(Lookup(h, "transaction").members, "tenders").JArray?
         && AllObjects(Lookup(Lookup(h, "transaction").members, "tenders").items)
         ==> r.Success? && r.value.Some?
  {
    if !(SuccessFrom(h) && Truthy(Lookup(h, "transaction"))) then Success(None)
    else
      var tenders :- Field(Lookup(h, "transaction"), "tenders");
      MapTendersOfObjects(tenders);
      var pairs :- MapTenders(tenders);
      Success(Some(Join(pairs, ";")))
  }

  /**
   * error_code_from: only an error reply has an error code, it is always
   * one of the table's standard codes, and reading it raises only on an
   * error reply.
   */
  function ErrorCodeFrom(h: seq<Member>): (r: Result<Option<StandardError>, Fault>)
    ensures SuccessFrom(h) ==> r == Success(None)
    ensures r.Success? && r.value.Some? ==> exists code :: code in Mapping && Mapping[code] == r.value.value
  {
    if SuccessFrom(h) then Success(None)
    else
      var error :- FirstError(h);
      if Present(error) then
        var code :- Field(error, "code");
        Success(StandardErrorFor(code))
      else Success(None)
  }

  /**
   * commit's construction of the result, its parts evaluated in the order
   * Ruby evaluates the arguments; the first part that raises is the outcome.
   */
  function Normalize(h: seq<Member>, test: bool): (r: Result<Response, Fault>)
    ensures r.Success? ==> r.value.success == !HasKey(h, "errors")
    ensures r.Success? ==> r.value.params == h && r.value.test == test
    ensures r.Success? ==> r.value.avsCode == "D" && r.value.cvvCode == "M"
    ensures r.Success? && r.value.success ==>
      r.value.message == ApprovedMessage && r.value.errorCode == None
    ensures r.Success? && !r.value.success ==> r.value.authorization == None
  {
    var message :- MessageFrom(h);
    var authorization :- AuthorizationFrom(h);
    var errorCode :- ErrorCodeFrom(h);
    Success(Response(SuccessFrom(h), message, h, authorization, errorCode, AvsCode, CvvCode, test))
  }

  // ---------------------------------------------------------------------
  // Properties
  // ---------------------------------------------------------------------

  lemma ApprovedHasNoColon()
    ensures ':' !in ApprovedMessage
  {
  }

  /** The pair written for one well-formed tender object. */
  function TenderPair(tender: seq<Member>): string
  {
    ToS(Lookup(tender, "transaction_id")) + "|" + ToS(Lookup(tender, "id"))
  }

  predicate AllObjects(items: seq<Json>)
  {
    forall i :: 0 <= i < |items| ==> items[i].JObject?
  }

  lemma {:induction false} TenderPairsOfObjects(tenders: seq<Json>)
    requires AllObjects(tenders)
    ensures TenderPairs(tenders).Success?
    ensures |TenderPairs(tenders).value| == |tenders|
    ensures forall i :: 0 <= i < |tenders| ==>
      TenderPairs(tenders).value[i] == TenderPair(tenders[i].members)
  {
    if tenders != [] {
      TenderPairsOfObjects(tenders[1..]);
    }
  }

  lemma MapTendersOfObjects(tenders: Json)
    ensures tenders.JArray? && AllObjects(tenders.items) ==> MapTenders(tenders).Success?
  {
    if tenders.JArray? && AllObjects(tenders.items) {
      TenderPairsOfObjects(tenders.items);
    }
  }

  /**
   * A successful reply with a transaction whose tenders are objects: the
   * authorization is the `;`-join, in tender order, of
   * "<transaction_id>|<id>", and the result is an approval.
   */
  lemma SuccessfulTransaction(h: seq<Member>, test: bool, transaction: seq<Member>, tenders: seq<Json>)
    requires !HasKey(h, "errors")
    requires Lookup(h, "transaction") == JObject(transaction)
    requires Lookup(transaction, "tenders") == JArray(tenders) && AllObjects(tenders)
    ensures Normalize(h, test) == Success(Response(true, ApprovedMessage, h,
      Some(Join(seq(|tenders|, i requires 0 <= i < |tenders| => TenderPair(tenders[i].members)), ";")),
      None, AvsCode, CvvCode, test))
  {
    TenderPairsOfObjects(tenders);
    var pairs := seq(|tenders|, i requires 0 <= i < |tenders| => TenderPair(tenders[i].members));
    assert TenderPairs(tenders).value == pairs;
  }

  /**
   * A successful reply without a transaction (capture, void and refund
   * replies) is an approval with no authorization.
   */
  lemma SuccessWithoutTransaction(h: seq<Member>, test: bool)
    requires !HasKey(h, "errors") && !Truthy(Lookup(h, "transaction"))
    ensures Normalize(h, test) == Success(Response(true, ApprovedMessage, h, None, None, AvsCode, CvvCode, test))
  {
  }

  /**
   * An error reply whose first error is an object: the failure message is
   * "<category>: <detail>" of that first error only, and the error code is
   * the table's entry for its code, or none when the code is not in the
   * table; nothing raises.
   */
  lemma ErrorReply(h: seq<Member>, test: bool, errors: seq<Json>, first: seq<Member>)
    requires Lookup(h, "errors") == JArray(errors) && errors != [] && errors[0] == JObject(first)
    ensures HasKey(h, "errors")
    ensures Normalize(h, test) == Success(Response(false,
      ToS(Lookup(first, "category")) + ": " + ToS(Lookup(first, "detail")), h, None,
      StandardErrorFor(Lookup(first, "code")), AvsCode, CvvCode, test))
  {
    assert HasKey(h, "errors");
    if first == [] {
      assert !Present(JObject(first));
    }
  }

  /** A declined card is reported with the standard card-declined code. */
  lemma DeclinedCard(h: seq<Member>, test: bool, errors: seq<Json>, first: seq<Member>)
    requires Lookup(h, "errors") == JArray(errors) && errors != [] && errors[0] == JObject(first)
    requires Lookup(first, "code") == JString("CARD_DECLINED")
    ensures Normalize(h, test).Success?
    ensures !Normalize(h, test).value.success
    ensures Normalize(h, test).value.errorCode == Some(CardDeclined)
  {
    ErrorReply(h, test, errors, first);
  }

  /** An unknown error code leaves the error code empty and the result a failure. */
  lemma UnmappedCodeFailsOpen(h: seq<Member>, test: bool, errors: seq<Json>, first: seq<Member>)
    requires Lookup(h, "errors") == JArray(errors) && errors != [] && errors[0] == JObject(first)
    requires !(Lookup(first, "code").JString? && Lookup(first, "code").s in Mapping)
    ensures Normalize(h, test).Success?
    ensures !Normalize(h, test).value.success && Normalize(h, test).value.errorCode == None
  {
    ErrorReply(h, test, errors, first);
  }

  /** An error list with no first error raises while building the message. */
  lemma EmptyErrorListRaises(h: seq<Member>, test: bool)
    requires Lookup(h, "errors") == JArray([]) && HasKey(h, "errors")
    ensures Normalize(h, test) == Failure(NoMethodError("[]"))
  {
  }

  /**
   * A body that is not JSON (the empty body included) yields a failure
   * whose message is the synthetic INVALID_REQUEST_ERROR embedding the
   * inspected body, with no authorization and no error code.
   */
  lemma UnparseableBody(body: string, parser: string -> Option<seq<Member>>, test: bool)
    requires parser(body).None?
    ensures Normalize(Parse(body, parser), test) == Success(Response(false,
      InvalidRequestCategory + ": " + InvalidResponseDetail(body), JsonError(body), None, None,
      AvsCode, CvvCode, test))
  {
    var h := JsonError(body);
    var first := [Member("category", JString(InvalidRequestCategory)),
                  Member("detail", JString(InvalidResponseDetail(body)))];
    assert Lookup(first, "code") == JNull;
    ErrorReply(h, test, [JObject(first)], first);
  }

  const InvalidResponsePreamble := InvalidRequestCategory + ": " + InvalidResponseMessage + "  "
    + "(The raw response returned by the API was "

  /** Reads the raw body back out of the message of a synthetic error. */
  function RawBodyOf(message: string): Option<string>
  {
    var n := |InvalidResponsePreamble|;
    if |message| > n && message[..n] == InvalidResponsePreamble && message[|message| - 1] == ')'
    then Uninspect(message[n..|message| - 1])
    else None
  }

  /** The raw body can be read back from the message of a synthetic error. */
  lemma UnparseableBodyRecoverable(body: string)
    ensures RawBodyOf(InvalidRequestCategory + ": " + InvalidResponseDetail(body)) == Some(body)
  {
    var m := InvalidRequestCategory + ": " + InvalidResponseDetail(body);
    assert m == InvalidResponsePreamble + Inspect(body) + ")";
    var n := |InvalidResponsePreamble|;
    assert m[..n] == InvalidResponsePreamble;
    assert m[n..|m| - 1] == Inspect(body);
    InspectRoundTrip(body);
  }

  /** The empty body gives exactly the message the remote test expects. */
  lemma EmptyBodyMessage(parser: string -> Option<seq<Member>>, test: bool)
    requires parser("").None?
    ensures Normalize(Parse("", parser), test).Success?
    ensures Normalize(Parse("", parser), test).value.message ==
      "INVALID_REQUEST_ERROR: " + "Invalid response received from the Square Connect API."
      + "  " + "(The raw response returned by the API was \"\")"
  {
    UnparseableBody("", parser, test);
    EmptyBodyText();
  }

  lemma EmptyBodyText()
    ensures InvalidRequestCategory + ": " + InvalidResponseDetail("") ==
      "INVALID_REQUEST_ERROR: " + "Invalid response received from the Square Connect API."
      + "  " + "(The raw response returned by the API was \"\")"
  {
    InspectPlain("");
    var tail := "(The raw response returned by the API was " + Inspect("") + ")";
    assert tail == "(The raw response returned by the API was \"\")";
    assert InvalidResponseDetail("") == InvalidResponseMessage + "  " + tail;
    assert InvalidRequestCategory + ": " == "INVALID_REQUEST_ERROR: ";
  }
}
