/**
 * The Square Connect gateway: its configuration, the operations a merchant
 * calls (purchase, authorize, capture, refund, void, verify, scrub), and
 * the round trip each of them makes through the transport and the
 * response normaliser. The HTTP transport and the JSON parser are
 * parameters of the gateway.
 */
module SquareConnect {
  import opened Wrappers
  import opened Json
  import opened RubyStrings
  import opened RubyValues
  import opened Normalizer
  import opened Payload
  import Scrubber

  const LiveUrl := "https://connect.squareup.com/v2"

  /**
   * What api_request hands to the transport: a POST to `url` carrying the
   * JSON form of `data` (none for capture and void), with the value of the
   * Authorization header.
   */
  datatype Request = Request(url: string, data: Option<seq<Member>>, authorization: string)

  // ---------------------------------------------------------------------
  // requires!
  // ---------------------------------------------------------------------

  function MissingParameter(key: string): Fault
  {
    ArgumentError("Missing required parameter: " + key)
  }

  /** requires!: the first of `keys` that is not a key of the hash raises ArgumentError. */
  function Requires(h: seq<Member>, keys: seq<string>): (r: Option<Fault>)
    ensures r.None? <==> forall i :: 0 <= i < |keys| ==> HasKey(h, keys[i])
  {
    if keys == [] then None
    else if !HasKey(h, keys[0]) then Some(MissingParameter(keys[0]))
    else Requires(h, keys[1..])
  }

  /** The fault names the first missing key. */
  lemma {:induction false} RequiresFirstMissing(h: seq<Member>, keys: seq<string>, i: nat)
    requires i < |keys| && !HasKey(h, keys[i])
    requires forall j :: 0 <= j < i ==> HasKey(h, keys[j])
    ensures Requires(h, keys) == Some(MissingParameter(keys[i]))
  {
    if i > 0 {
      assert HasKey(h, keys[0]);
      RequiresFirstMissing(h, keys[1..], i - 1);
    }
  }

  /** The options a gateway cannot be created without. */
  const CredentialKeys := ["application_id", "access_token", "location_id"]

  // ---------------------------------------------------------------------
  // The authorization token
  // ---------------------------------------------------------------------

  /** `authorization.split('|')`: only a string has `split`. */
  function SplitAuthorization(authorization: Json): (r: Result<seq<string>, Fault>)
    ensures r.Success? <==> authorization.JString?
  {
    match authorization
    case JString(s) => Success(Split(s, '|'))
    case _ => Failure(NoMethodError("split"))
  }

  /** `authorization || 'null'`: the first piece, or the text "null" when there is none. */
  function TransactionSegment(pieces: seq<string>): string
  {
    if pieces == [] then "null" else pieces[0]
  }

  /** The tender id: the second piece, or nil. */
  function TenderId(pieces: seq<string>): Json
  {
    if |pieces| >= 2 then JString(pieces[1]) else JNull
  }

  /** A response's authorization as the Ruby value handed on to void: a string or nil. */
  function AuthorizationValue(authorization: Option<string>): Json
  {
    match authorization
    case Some(a) => JString(a)
    case None => JNull
  }

  /** The empty token has no pieces: the path names the transaction "null", and there is no tender id. */
  lemma SplitEmptyToken()
    ensures TransactionSegment(Split("", '|')) == "null" && TenderId(Split("", '|')) == JNull
  {
    assert Pieces("", '|') == [""];
    assert DropTrailingEmpty([""]) == DropTrailingEmpty([]);
  }

  /** A leading separator gives an empty first piece, which is kept: the path names the transaction "". */
  lemma SplitLeadingSeparator()
    ensures TransactionSegment(Split("|b", '|')) == "" && TenderId(Split("|b", '|')) == JString("b")
  {
    assert "|b" == "" + ['|'] + "b";
    SplitPair("", '|', "b");
  }

  /** A trailing separator gives an empty second piece, which is dropped: there is no tender id. */
  lemma SplitTrailingSeparator()
    ensures TransactionSegment(Split("a|", '|')) == "a" && TenderId(Split("a|", '|')) == JNull
  {
    assert "a|" == "a" + ['|'];
    SplitTrailing("a", '|');
  }

  /** With two tenders the tender id runs from the first tender's id into the second transaction id. */
  lemma SplitTwoTenders()
    ensures TransactionSegment(Split("T1|X1;T2|X2", '|')) == "T1"
    ensures TenderId(Split("T1|X1;T2|X2", '|')) == JString("X1;T2")
  {
    assert "T1|X1;T2|X2" == "T1" + ['|'] + "X1;T2" + ['|'] + "X2";
    SplitThree("T1", '|', "X1;T2", "X2");
  }

  /**
   * A successful charge reply whose tenders are objects: its authorization
   * leads with the first tender's transaction id, so capture, void and
   * refund address that transaction, provided the id is a non-empty
   * string without '|'.
   */
  lemma AuthorizationNamesFirstTransaction(h: seq<Member>, test: bool, transaction: seq<Member>, tenders: seq<Json>)
    requires !HasKey(h, "errors")
    requires Lookup(h, "transaction") == JObject(transaction)
    requires Lookup(transaction, "tenders") == JArray(tenders) && AllObjects(tenders) && tenders != []
    requires var t := ToS(Lookup(tenders[0].members, "transaction_id")); '|' !in t && t != ""
    ensures Normalize(h, test).Success? && Normalize(h, test).value.authorization.Some?
    ensures TransactionSegment(Split(Normalize(h, test).value.authorization.value, '|'))
         == ToS(Lookup(tenders[0].members, "transaction_id"))
  {
    var pairs := seq(|tenders|, i requires 0 <= i < |tenders| => TenderPair(tenders[i].members));
    var t := ToS(Lookup(tenders[0].members, "transaction_id"));
    var id := ToS(Lookup(tenders[0].members, "id"));
    assert Normalize(h, test).value.authorization == Some(Join(pairs, ";")) by {
      SuccessfulTransaction(h, test, transaction, tenders);
    }
    assert pairs[0] == t + ['|'] + id;
    JoinLead(pairs, ";", t, '|', id);
    SplitFirst(t, '|', if |pairs| == 1 then id else id + ";" + Join(pairs[1..], ";"));
  }

  /**
   * With a single tender whose transaction id and tender id are non-empty
   * strings without '|', the authorization splits back into exactly the
   * two ids: the token round-trips.
   */
  lemma SingleTenderRoundTrip(h: seq<Member>, test: bool, transaction: seq<Member>, tender: seq<Member>)
    requires !HasKey(h, "errors")
    requires Lookup(h, "transaction") == JObject(transaction)
    requires Lookup(transaction, "tenders") == JArray([JObject(tender)])
    requires Lookup(tender, "transaction_id").JString? && Lookup(tender, "id").JString?
    requires var t := Lookup(tender, "transaction_id").s; '|' !in t && t != ""
    requires var id := Lookup(tender, "id").s; '|' !in id && id != ""
    ensures Normalize(h, test).Success?
    ensures Normalize(h, test).value.authorization
         == Some(Lookup(tender, "transaction_id").s + "|" + Lookup(tender, "id").s)
    ensures var pieces := Split(Normalize(h, test).value.authorization.value, '|');
      TransactionSegment(pieces) == Lookup(tender, "transaction_id").s
      && TenderId(pieces) == Lookup(tender, "id")
  {
    var t, id := Lookup(tender, "transaction_id").s, Lookup(tender, "id").s;
    SuccessfulTransaction(h, test, transaction, [JObject(tender)]);
    var pairs := seq(1, i requires 0 <= i < 1 => TenderPair([JObject(tender)][i].members));
    assert pairs == [t + "|" + id];
    SplitPair(t, '|', id);
  }

  // ---------------------------------------------------------------------
  // The gateway
  // ---------------------------------------------------------------------

  /**
   * A configured gateway: its options (the credentials among them), the
   * test flag, the transport returning the reply body for a request (2xx
   * or not: an error reply's body is parsed like any other), and the JSON
   * parser.
   */
  datatype Gateway = Gateway(
    options: seq<Member>,
    test: bool,
    transport: Request -> string,
    parser: string -> Option<seq<Member>>)
  {
    function LocationId(): Json
    {
      Lookup(options, "location_id")
    }

    /** The Authorization header: the access token as a bearer token. */
    function Headers(): string
    {
      "Bearer " + ToS(Lookup(options, "access_token"))
    }

    /** token_size: the size of the access token; nil, true and false have none. */
    function TokenSize(): (r: Result<nat, Fault>)
      ensures Lookup(options, "access_token").JString? ==> r == Success(|Lookup(options, "access_token").s|)
    {
      match Lookup(options, "access_token")
      case JString(s) => Success(|s|)
      case JArray(items) => Success(|items|)
      case JObject(members) => Success(|members|)
      case JInt(_) => Success(8)
      case _ => Failure(NoMethodError("size"))
    }

    /** api_request: send, then parse whatever body comes back. */
    function ApiRequest(endpoint: string, parameters: Option<seq<Member>>): seq<Member>
    {
      Parse(transport(Request(LiveUrl + "/" + endpoint, parameters, Headers())), parser)
    }

    /**
     * commit: the reply to the request, normalised; a response it returns
     * succeeds exactly when the reply has no "errors", carries the reply
     * as its params, and has the gateway's test flag.
     */
    function Commit(endpoint: string, parameters: Option<seq<Member>>): (r: Result<Response, Fault>)
      ensures r.Success? ==> r.value.success == !HasKey(ApiRequest(endpoint, parameters), "errors")
      ensures r.Success? ==> r.value.params == ApiRequest(endpoint, parameters) && r.value.test == test
    {
      Normalize(ApiRequest(endpoint, parameters), test)
    }

    function TransactionsPath(): string
    {
      "locations/" + ToS(LocationId()) + "/transactions"
    }

    function TransactionPath(pieces: seq<string>, action: string): string
    {
      TransactionsPath() + "/" + TransactionSegment(pieces) + "/" + action
    }

    /** What charge returns: requires! first, then the payload, then the round trip. */
    function ChargeOutcome(money: int, payment: Json, opts: seq<Member>): Result<Response, Fault>
    {
      match Requires(opts, ["idempotency_key"])
      case Some(fault) => Failure(fault)
      case None =>
        var post :- ChargePayload(money, payment, opts);
        Commit(TransactionsPath(), Some(post))
    }

    /** charge */
    method Charge(money: int, payment: Json, opts: seq<Member>) returns (r: Result<Response, Fault>)
      ensures r == ChargeOutcome(money, payment, opts)
    {
      var missing := Requires(opts, ["idempotency_key"]);
      if missing.Some? {
        return Failure(missing.value);
      }
      var post := BuildCharge(money, payment, opts);
      if post.Failure? {
        return Failure(post.error);
      }
      r := Commit(TransactionsPath(), Some(post.value));
    }

    /** purchase: sets the caller's delay_capture option to false, then charges. */
    method Purchase(money: int, payment: Json, opts: Hash) returns (r: Result<Response, Fault>)
      modifies opts
      ensures opts.members == Set(old(opts.members), "delay_capture", JBool(false))
      ensures r == ChargeOutcome(money, payment, opts.members)
    {
      opts.Assign("delay_capture", JBool(false));
      r := Charge(money, payment, opts.members);
    }

    /** authorize: sets the caller's delay_capture option to true, then charges. */
    method Authorize(money: int, payment: Json, opts: Hash) returns (r: Result<Response, Fault>)
      modifies opts
      ensures opts.members == Set(old(opts.members), "delay_capture", JBool(true))
      ensures r == ChargeOutcome(money, payment, opts.members)
    {
      opts.Assign("delay_capture", JBool(true));
      r := Charge(money, payment, opts.members);
    }

    /**
     * capture: a token that is not a string raises; otherwise the reply to
     * a bodiless POST to the capture URL of the token's transaction,
     * whatever the amount and the options.
     */
    function Capture(money: int, authorization: Json, opts: seq<Member>): (r: Result<Response, Fault>)
      ensures !authorization.JString? ==> r == Failure(NoMethodError("split"))
      ensures authorization.JString? ==>
        r == Normalize(Parse(transport(Request(
               LiveUrl + "/" + ("locations/" + ToS(LocationId()) + "/transactions" + "/"
                                + TransactionSegment(Split(authorization.s, '|')) + "/" + "capture"),
               None, Headers())), parser), test)
    {
      var pieces :- SplitAuthorization(authorization);
      Commit(TransactionPath(pieces, "capture"), None)
    }

    /**
     * void: a token that is not a string raises; otherwise the reply to a
     * bodiless POST to the void URL of the token's transaction, whatever
     * the options.
     */
    function Void(authorization: Json, opts: seq<Member>): (r: Result<Response, Fault>)
      ensures !authorization.JString? ==> r == Failure(NoMethodError("split"))
      ensures authorization.JString? ==>
        r == Normalize(Parse(transport(Request(
               LiveUrl + "/" + ("locations/" + ToS(LocationId()) + "/transactions" + "/"
                                + TransactionSegment(Split(authorization.s, '|')) + "/" + "void"),
               None, Headers())), parser), test)
    {
      var pieces :- SplitAuthorization(authorization);
      Commit(TransactionPath(pieces, "void"), None)
    }

    /** What refund returns: requires! first, then the split, then the round trip. */
    function RefundOutcome(money: int, authorization: Json, opts: seq<Member>): Result<Response, Fault>
    {
      match Requires(opts, ["idempotency_key"])
      case Some(fault) => Failure(fault)
      case None =>
        var pieces :- SplitAuthorization(authorization);
        Commit(TransactionPath(pieces, "refund"), Some(RefundPayload(money, TenderId(pieces), opts)))
    }

    /** refund: the refund payload is built in place, then posted. */
    method Refund(money: int, authorization: Json, opts: seq<Member>) returns (r: Result<Response, Fault>)
      ensures r == RefundOutcome(money, authorization, opts)
    {
      var missing := Requires(opts, ["idempotency_key"]);
      if missing.Some? {
        return Failure(missing.value);
      }
      var pieces := SplitAuthorization(authorization);
      if pieces.Failure? {
        return Failure(pieces.error);
      }
      var post := BuildRefund(money, TenderId(pieces.value), opts);
      r := Commit(TransactionPath(pieces.value, "refund"), Some(post));
    }

    /**
     * What verify returns, given what authorize returned and the options
     * after authorize set delay_capture: the authorize response; void runs on its authorization
     * only after an approval, its response is dropped, and only an
     * exception it raises replaces the outcome.
     */
    function VerifyOutcome(authorized: Result<Response, Fault>, opts: seq<Member>): Result<Response, Fault>
    {
      var first :- authorized;
      if !first.success then Success(first)
      else
        var _ :- Void(AuthorizationValue(first.authorization), opts);
        Success(first)
    }

    /** verify: authorize 100 cents, then void that authorization. */
    method Verify(creditCard: Json, opts: Hash) returns (r: Result<Response, Fault>)
      modifies opts
      ensures opts.members == Set(old(opts.members), "delay_capture", JBool(true))
      ensures r == VerifyOutcome(ChargeOutcome(100, creditCard, opts.members), opts.members)
    {
      var first := Authorize(100, creditCard, opts);
      if first.Failure? {
        return Failure(first.error);
      }
      if first.value.success {
        var second := Void(AuthorizationValue(first.value.authorization), opts.members);
        if second.Failure? {
          return Failure(second.error);
        }
      }
      return Success(first.value);
    }

    /**
     * scrub: the three substitutions, the bearer token's width being the
     * access token's size; it raises exactly when that size does, and a
     * transcript in which no pattern can match comes back unchanged.
     */
    function Scrub(transcript: string): (r: Result<string, Fault>)
      ensures r.Success? <==> TokenSize().Success?
      ensures r.Success? && Scrubber.Unmatched(transcript) ==> r.value == transcript
    {
      var size :- TokenSize();
      Success(Scrubber.Scrub(transcript, size))
    }
  }

  /** initialize: a gateway exists only when the options hold the three credentials. */
  function Create(options: seq<Member>, test: bool, transport: Request -> string,
                  parser: string -> Option<seq<Member>>): (r: Result<Gateway, Fault>)
    ensures r.Success? <==> forall i :: 0 <= i < |CredentialKeys| ==> HasKey(options, CredentialKeys[i])
    ensures r.Success? ==> r.value.options == options && r.value.test == test
  {
    match Requires(options, CredentialKeys)
    case Some(fault) => Failure(fault)
    case None => Success(Gateway(options, test, transport, parser))
  }

  // ---------------------------------------------------------------------
  // Properties of the operations
  // ---------------------------------------------------------------------

  /** Without all three credentials no gateway is created, and the fault names the first one missing. */
  lemma CreateNamesFirstMissing(options: seq<Member>, test: bool, transport: Request -> string,
                                parser: string -> Option<seq<Member>>, i: nat)
    requires i < |CredentialKeys| && !HasKey(options, CredentialKeys[i])
    requires forall j :: 0 <= j < i ==> HasKey(options, CredentialKeys[j])
    ensures Create(options, test, transport, parser) == Failure(MissingParameter(CredentialKeys[i]))
  {
    RequiresFirstMissing(options, CredentialKeys, i);
  }

  /**
   * charge without an idempotency key raises before any payload is built
   * or request sent: the outcome is the same whatever the transport.
   */
  lemma ChargeNeedsIdempotencyKey(g: Gateway, money: int, payment: Json, opts: seq<Member>)
    requires !HasKey(opts, "idempotency_key")
    ensures g.ChargeOutcome(money, payment, opts) == Failure(MissingParameter("idempotency_key"))
  {
    RequiresFirstMissing(opts, ["idempotency_key"], 0);
  }

  /**
   * charge with an idempotency key and well-formed addresses commits the
   * charge members (amount, nonce, addresses, customer, then the optional
   * fields) to the location's transactions endpoint.
   */
  lemma ChargeRequest(g: Gateway, money: int, payment: Json, opts: seq<Member>)
    requires HasKey(opts, "idempotency_key") && AddressesWellFormed(opts)
    ensures g.ChargeOutcome(money, payment, opts)
         == g.Commit(g.TransactionsPath(), Some(ChargeMembers(money, payment, opts)))
  {
    assert Requires(opts, ["idempotency_key"]).None?;
    ChargePayloadShape(money, payment, opts);
  }

  /**
   * purchase and authorize set delay_capture on the options before charge
   * reads them, so the payload carries false and true respectively.
   */
  lemma DelayCaptureFlag(money: int, payment: Json, opts: seq<Member>, flag: bool)
    requires AddressesWellFormed(opts)
    ensures ChargePayload(money, payment, Set(opts, "delay_capture", JBool(flag))).Success?
    ensures Lookup(ChargePayload(money, payment, Set(opts, "delay_capture", JBool(flag))).value, "delay_capture")
         == JBool(flag)
  {
    var opts' := Set(opts, "delay_capture", JBool(flag));
    SetFind(opts, "delay_capture", JBool(flag));
    assert Lookup(opts', "delay_capture") == JBool(flag);
    assert Lookup(opts', AddressTypes[0]) == Lookup(opts, AddressTypes[0]);
    assert Lookup(opts', AddressTypes[1]) == Lookup(opts, AddressTypes[1]);
    ChargePayloadFields(money, payment, opts');
  }

  /** A token "<transaction id>|<tender id>" of two non-empty ids without '|' splits into the two ids. */
  lemma TokenPieces(t: string, id: string)
    requires '|' !in t && t != "" && '|' !in id && id != ""
    ensures SplitAuthorization(JString(t + "|" + id)) == Success([t, id])
  {
    assert t + "|" + id == t + ['|'] + id;
    SplitPair(t, '|', id);
  }

  /** capture and void of such a token post no body to that transaction's path. */
  lemma TokenTargets(g: Gateway, money: int, t: string, id: string, opts: seq<Member>)
    requires '|' !in t && t != "" && '|' !in id && id != ""
    ensures g.Capture(money, JString(t + "|" + id), opts)
         == g.Commit(g.TransactionsPath() + "/" + t + "/" + "capture", None)
    ensures g.Void(JString(t + "|" + id), opts)
         == g.Commit(g.TransactionsPath() + "/" + t + "/" + "void", None)
  {
    TokenPieces(t, id);
    assert TransactionSegment([t, id]) == t;
  }

  /** refund of such a token posts its payload, naming the tender, to that transaction's refund path. */
  lemma RefundTarget(g: Gateway, money: int, t: string, id: string, opts: seq<Member>)
    requires '|' !in t && t != "" && '|' !in id && id != ""
    requires HasKey(opts, "idempotency_key")
    ensures g.RefundOutcome(money, JString(t + "|" + id), opts)
         == g.Commit(g.TransactionsPath() + "/" + t + "/" + "refund", Some(RefundPayload(money, JString(id), opts)))
  {
    TokenPieces(t, id);
    assert TransactionSegment([t, id]) == t && TenderId([t, id]) == JString(id);
    assert Requires(opts, ["idempotency_key"]).None?;
  }

  /** The empty token makes capture, void and refund address the transaction "null", with no tender id. */
  lemma EmptyTokenTargetsNull(g: Gateway, money: int, opts: seq<Member>)
    requires HasKey(opts, "idempotency_key")
    ensures g.Capture(money, JString(""), opts) == g.Commit(g.TransactionsPath() + "/" + "null" + "/" + "capture", None)
    ensures g.Void(JString(""), opts) == g.Commit(g.TransactionsPath() + "/" + "null" + "/" + "void", None)
    ensures g.RefundOutcome(money, JString(""), opts)
         == g.Commit(g.TransactionsPath() + "/" + "null" + "/" + "refund", Some(RefundPayload(money, JNull, opts)))
  {
    SplitEmptyToken();
    assert Requires(opts, ["idempotency_key"]).None?;
  }

  /** A nil authorization has no split: capture, void and refund raise NoMethodError. */
  lemma NilTokenRaises(g: Gateway, money: int, opts: seq<Member>)
    requires HasKey(opts, "idempotency_key")
    ensures g.Capture(money, JNull, opts) == Failure(NoMethodError("split"))
    ensures g.Void(JNull, opts) == Failure(NoMethodError("split"))
    ensures g.RefundOutcome(money, JNull, opts) == Failure(NoMethodError("split"))
  {
    assert Requires(opts, ["idempotency_key"]).None?;
  }

  /** refund without an idempotency key raises before the token is split or any request sent. */
  lemma RefundNeedsIdempotencyKey(g: Gateway, money: int, authorization: Json, opts: seq<Member>)
    requires !HasKey(opts, "idempotency_key")
    ensures g.RefundOutcome(money, authorization, opts) == Failure(MissingParameter("idempotency_key"))
  {
    RequiresFirstMissing(opts, ["idempotency_key"], 0);
  }

  /**
   * verify hands back authorize's response: whenever it returns, it
   * returns exactly what authorize returned, whatever void answered, and
   * it returns whenever authorize was declined or void did not raise.
   */
  lemma VerifyKeepsAuthorize(g: Gateway, authorized: Result<Response, Fault>, opts: seq<Member>)
    ensures g.VerifyOutcome(authorized, opts).Success? ==> g.VerifyOutcome(authorized, opts) == authorized
    ensures authorized.Failure? ==> g.VerifyOutcome(authorized, opts) == Failure(authorized.error)
    ensures authorized.Success? && !authorized.value.success ==> g.VerifyOutcome(authorized, opts) == authorized
    ensures authorized.Success? && g.Void(AuthorizationValue(authorized.value.authorization), opts).Success?
         ==> g.VerifyOutcome(authorized, opts) == authorized
  {
  }

  /** An approved authorize reply without an authorization makes verify raise in void. */
  lemma VerifyWithoutAuthorizationRaises(g: Gateway, authorized: Response, opts: seq<Member>)
    requires authorized.success && authorized.authorization.None?
    ensures g.VerifyOutcome(Success(authorized), opts) == Failure(NoMethodError("split"))
  {
  }

  /**
   * A gateway whose access token is as long as the unit test's scrubs the
   * unit test's transcript to the expected text.
   */
  lemma GatewayScrubsTranscript(g: Gateway, t0: string, t1: string, t2: string, t3: string)
    requires g.TokenSize() == Success(|Scrubber.FixtureToken|)
    requires Scrubber.Unmatched(t0) && Scrubber.Unmatched(t1) && Scrubber.Unmatched(t2) && Scrubber.Unmatched(t3)
    ensures g.Scrub(t0 + Scrubber.LocationPrefix + Scrubber.FixtureLocation + t1
                    + Scrubber.BearerPrefix + Scrubber.FixtureToken
                    + t2 + Scrubber.NoncePrefix + Scrubber.FixtureNonce + t3)
         == Success(t0 + Scrubber.LocationPrefix + Scrubber.Filtered + t1 + Scrubber.BearerPrefix + Scrubber.Filtered
                    + t2 + Scrubber.NoncePrefix + Scrubber.Filtered + t3)
  {
    Scrubber.ScrubTranscript(t0, t1, t2, t3);
  }
}
