/**
 * The taxonomy mapper: Square's error codes that the gateway translates into
 * the standard error codes shared by all gateways.
 */
module ErrorCodes {
  import opened Wrappers
  import opened Json

  /** The standard error codes this gateway produces. */
  datatype StandardError =
    | InvalidNumber
    | InvalidExpiryDate
    | ExpiredCard
    | IncorrectCvc
    | IncorrectZip
    | CardDeclined
    | CallIssuer

  /** STANDARD_ERROR_CODE_MAPPING: Square error code to standard error code. */
  const Mapping: map<string, StandardError> := map[
    "INVALID_CARD" := InvalidNumber,
    "INVALID_EXPIRATION_YEAR" := InvalidExpiryDate,
    "INVALID_EXPIRATION" := InvalidExpiryDate,
    "CARD_EXPIRED" := ExpiredCard,
    "VERIFY_CVV_FAILURE" := IncorrectCvc,
    "VERIFY_AVS_FAILURE" := IncorrectZip,
    "CARD_DECLINED" := CardDeclined,
    "CARD_DECLINED_CALL_ISSUER" := CallIssuer
  ]

  /**
   * Indexing the mapping hash with whatever value the response carried as
   * its code: only a string that is one of the table's keys finds an entry;
   * every other value, nil included, finds nothing and raises nothing.
   */
  function StandardErrorFor(code: Json): (r: Option<StandardError>)
    ensures r.Some? <==> code.JString? && code.s in Mapping
    ensures r.Some? ==> r.value == Mapping[code.s]
  {
    if code.JString? && code.s in Mapping then Some(Mapping[code.s]) else None
  }

  /** Every standard error code of the taxonomy is reached by some Square code. */
  lemma MappingReachesEveryKind(kind: StandardError)
    ensures exists code :: code in Mapping && Mapping[code] == kind
  {
    match kind
    case InvalidNumber => assert Mapping["INVALID_CARD"] == kind;
    case InvalidExpiryDate => assert Mapping["INVALID_EXPIRATION"] == kind;
    case ExpiredCard => assert Mapping["CARD_EXPIRED"] == kind;
    case IncorrectCvc => assert Mapping["VERIFY_CVV_FAILURE"] == kind;
    case IncorrectZip => assert Mapping["VERIFY_AVS_FAILURE"] == kind;
    case CardDeclined => assert Mapping["CARD_DECLINED"] == kind;
    case CallIssuer => assert Mapping["CARD_DECLINED_CALL_ISSUER"] == kind;
  }
}
