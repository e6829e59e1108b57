# Square Connect gateway, modelled in Dafny

This project models ActiveMerchant's Square Connect gateway adapter
(`SquareConnectGateway`). The adapter translates the generic card-payment
operations into calls to Square's Connect v2 REST API:

- `purchase`, `authorize`, `capture`, `void`, `refund` and `verify`;
- it builds the JSON bodies those calls post;
- it normalises every reply into the uniform `Response`: success flag,
  message, authorization token, fixed AVS/CVV codes and a standard error code;
- it scrubs card nonces, bearer tokens and location ids from HTTP transcripts.

Modules, in dependency order:

- `Wrappers`: `Option` and `Result`. `Result` supports `:-`, so a Ruby
  exception propagates the way a raise does.
- `Json`: parsed JSON values and Ruby hashes.
  - A hash is an ordered `seq<Member>`.
  - `Lookup` returns `nil` (`JNull`) for a missing key.
  - `Set` is `Hash#[]=`: it replaces the value in place, or appends a new key at the end.
  - `Json.Hash` is the mutable hash that the payload builders and the caller's options are.
- `RubyValues`: what the adapter relies on from Ruby itself.
  - Truthiness, `present?`, `v[0]`, `v['key']` and `"#{v}"` on any JSON value.
  - The exceptions these raise: `NoMethodError` and `TypeError`.
- `RubyStrings`: `String#split` (Ruby drops trailing empty fields), `Array#join`,
  `Integer#to_s` and `String#inspect`, with their round-trip lemmas.
- `ErrorCodes`: the Square-to-standard error-code table.
- `Normalizer`: `parse`, `json_error` and the `*_from` functions, composed by `Normalize`.
- `Payload`: the charge and refund request bodies. Each is written two ways:
  - as functions, one per `add_*` step;
  - as the in-place methods charge runs, each proved equal to its step.
- `Scrubber`: the three `gsub` passes of `scrub`, as fixed-width pattern substitutions.
- `SquareConnect`: the gateway itself. It holds the six operations, `initialize`,
  the `commit`/`api_request` round trip and the path and token handling.

Modelling decisions:

- **The gateway is a value, not an object.** It is a datatype: its options, its test flag, a
  transport and a JSON parser. The adapter never updates its own state after
  `initialize`.
  - The transport is a function from a `Request` (URL, body, Authorization
    header) to the reply body. It stands for `ssl_request`, and it hands back
    error replies' bodies like any other, as `api_request`'s `rescue` does.
  - The parser stands for `JSON.parse`. It returns a hash, or nothing when the body is not JSON.
- **The caller's options are mutated.** `purchase`, `authorize` and `verify` write `delay_capture`
  into the options hash they were given, so those methods take a `Json.Hash`
  and state its new contents.
- **The charge payload is built in place.** `charge` builds it in a fresh hash through
  `add_invoice` … `add_optional_data`, each a method proved equal to a pure step function.
  What charge sends is then described member by member by lemmas.
- **Symbols are strings.** Symbol keys are modelled as the strings they name. The options, the
  payload and the parsed reply therefore share one key space.
- **Money is an integer number of cents.** This is what `amount(money).to_i` yields for the
  gateway's `:cents` money format. The currency defaults to USD.
- **The AVS and CVV codes are the constants 'D' and 'M'.** The source's comments speak of a
  hard-coded 'I' for "unverified", but the code returns 'D' and 'M', and the
  model follows the code.
- **A failed `verify` follows `MultiResponse.run(:use_first_response)`.**
  - `void` runs only when `authorize` succeeded.
  - Its response is ignored (`:ignore_result`).
  - An exception it raises propagates.
- **Scrubbing is not idempotent.** The nonce pattern `[\w|\D]{30}` takes any 30
  characters. In a scrubbed transcript, the marker and the text after it can
  therefore form a new nonce window, and a second scrub removes text the first one kept.
  The model follows the code here, not the expectation that scrubbing twice
  changes nothing (`Scrubber.ScrubNotIdempotent`).

## Model

| member | source | states |
|---|---|---|
| `ErrorCodes.StandardErrorFor` | lib/active_merchant/billing/gateways/square_connect.rb:13-22 | a code maps to a standard error exactly when it is a string key of the table, and then to that key's entry |
| `ErrorCodes.MappingReachesEveryKind` | lib/active_merchant/billing/gateways/square_connect.rb:13-22 | every standard error code the gateway produces is reached by some Square code |
| `SquareConnect.Requires` | lib/active_merchant/billing/gateways/square_connect.rb:25 | `requires!` raises nothing exactly when every required key is present |
| `SquareConnect.RequiresFirstMissing` | lib/active_merchant/billing/gateways/square_connect.rb:44 | `requires!` raises ArgumentError naming the first missing key |
| `SquareConnect.Create` | lib/active_merchant/billing/gateways/square_connect.rb:24-27 | a gateway is created exactly when application_id, access_token and location_id are all given, and it keeps the options and test flag |
| `SquareConnect.CreateNamesFirstMissing` | lib/active_merchant/billing/gateways/square_connect.rb:24-27 | without a credential, initialize raises ArgumentError naming the first one missing |
| `SquareConnect.SplitAuthorization` | lib/active_merchant/billing/gateways/square_connect.rb:57 | the token splits exactly when it is a string; nil has no `split` |
| `SquareConnect.SplitEmptyToken` | lib/active_merchant/billing/gateways/square_connect.rb:57-59 | the empty token has no transaction id, so the path uses "null", and it has no tender id |
| `SquareConnect.SplitLeadingSeparator` | lib/active_merchant/billing/gateways/square_connect.rb:65 | a token that starts with the bar separator gives an empty transaction id, and the rest as tender id |
| `SquareConnect.SplitTrailingSeparator` | lib/active_merchant/billing/gateways/square_connect.rb:65 | a token that ends with the bar separator gives no tender id: split drops the trailing empty field |
| `SquareConnect.SplitTwoTenders` | lib/active_merchant/billing/gateways/square_connect.rb:229-231 | a two-tender authorization yields the first transaction id and a tender id that runs into the second tender |
| `SquareConnect.AuthorizationNamesFirstTransaction` | lib/active_merchant/billing/gateways/square_connect.rb:225-232 | an approved reply's authorization splits to the first tender's transaction id first, whatever the number of tenders |
| `SquareConnect.SingleTenderRoundTrip` | lib/active_merchant/billing/gateways/square_connect.rb:225-232 | with one tender the authorization is the transaction id and the tender id joined by a bar, and splitting it gives back both ids |
| `SquareConnect.Gateway.TokenSize` | lib/active_merchant/billing/gateways/square_connect.rb:212-214 | a string access token's size is its length |
| `SquareConnect.Gateway.Charge` | lib/active_merchant/billing/gateways/square_connect.rb:43-54 | charge returns its outcome: requires! first, then the payload built by the add_* steps, then the commit |
| `SquareConnect.Gateway.Purchase` | lib/active_merchant/billing/gateways/square_connect.rb:33-36 | the caller's options gain delay_capture = false, and the result is charge on the updated options |
| `SquareConnect.Gateway.Authorize` | lib/active_merchant/billing/gateways/square_connect.rb:38-41 | the caller's options gain delay_capture = true, and the result is charge on the updated options |
| `SquareConnect.Gateway.Refund` | lib/active_merchant/billing/gateways/square_connect.rb:63-74 | refund returns its outcome: requires! first, then the split, then the payload posted to the refund path |
| `SquareConnect.Gateway.Verify` | lib/active_merchant/billing/gateways/square_connect.rb:83-88 | the options gain delay_capture = true; the result is authorize(100) followed by void under the first-response rule |
| `SquareConnect.Gateway.Commit` | lib/active_merchant/billing/gateways/square_connect.rb:181-194 | the response succeeds exactly when the reply has no "errors" key, and carries the reply as its params and the gateway's test flag |
| `SquareConnect.Gateway.Capture` | lib/active_merchant/billing/gateways/square_connect.rb:56-61 | a token that is not a string raises NoMethodError on `split`; otherwise the result is the normalised reply to a bodiless POST to `locations/<location_id>/transactions/<first piece or null>/capture` |
| `SquareConnect.Gateway.Void` | lib/active_merchant/billing/gateways/square_connect.rb:76-81 | a token that is not a string raises NoMethodError on `split`; otherwise the result is the normalised reply to a bodiless POST to `locations/<location_id>/transactions/<first piece or null>/void` |
| `SquareConnect.Gateway.Scrub` | lib/active_merchant/billing/gateways/square_connect.rb:94-98 | scrub raises exactly when the token size does, and a transcript in which no pattern can start comes back unchanged |
| `SquareConnect.ChargeNeedsIdempotencyKey` | lib/active_merchant/billing/gateways/square_connect.rb:44 | charge without an idempotency key raises ArgumentError, whatever the transport |
| `SquareConnect.ChargeRequest` | lib/active_merchant/billing/gateways/square_connect.rb:43-54 | with the key, charge commits the charge members to locations/<location_id>/transactions |
| `SquareConnect.DelayCaptureFlag` | lib/active_merchant/billing/gateways/square_connect.rb:33-41 | the flag purchase or authorize writes is the delay_capture the payload carries |
| `SquareConnect.TokenPieces` | lib/active_merchant/billing/gateways/square_connect.rb:57 | two non-empty ids joined by a bar, neither holding one, split into exactly those ids |
| `SquareConnect.TokenTargets` | lib/active_merchant/billing/gateways/square_connect.rb:56-61 | capture and void of such a token post no body to the transaction's capture and void paths |
| `SquareConnect.RefundTarget` | lib/active_merchant/billing/gateways/square_connect.rb:63-74 | refund of such a token posts the refund payload, naming the second id as tender, to the transaction's refund path |
| `SquareConnect.EmptyTokenTargetsNull` | lib/active_merchant/billing/gateways/square_connect.rb:56-81 | the empty token addresses the transaction "null" in capture, void and refund, and refund then sends no tender id |
| `SquareConnect.NilTokenRaises` | lib/active_merchant/billing/gateways/square_connect.rb:56-81 | a nil authorization makes capture, void and refund raise NoMethodError |
| `SquareConnect.RefundNeedsIdempotencyKey` | lib/active_merchant/billing/gateways/square_connect.rb:64 | refund without an idempotency key raises ArgumentError before the token is split |
| `SquareConnect.VerifyKeepsAuthorize` | lib/active_merchant/billing/gateways/square_connect.rb:83-88 | whenever verify returns, it returns authorize's response; it returns whenever authorize was declined or void did not raise |
| `SquareConnect.VerifyWithoutAuthorizationRaises` | lib/active_merchant/billing/gateways/square_connect.rb:86 | an approval without authorization makes verify's void raise NoMethodError |
| `SquareConnect.GatewayScrubsTranscript` | test/unit/gateways/square_connect_test.rb:68-71 | a gateway whose access token is as long as the unit test's scrubs the unit test's location id, token and nonce, set in text in which no pattern prefix starts, to the expected text |
| `Json.Keys` | lib/active_merchant/billing/gateways/square_connect.rb:45-51 | a hash's keys, one per member, in insertion order |
| `Json.Find` | lib/active_merchant/billing/gateways/square_connect.rb:30 | a value is found exactly when the key is present |
| `Json.Lookup` | lib/active_merchant/billing/gateways/square_connect.rb:30 | `h[k]` is the stored value, or nil when the key is absent |
| `Json.Set` | lib/active_merchant/billing/gateways/square_connect.rb:34 | `h[k] = v` keeps the other keys and their order, and appends k only when it is new |
| `Json.Hash.constructor` | lib/active_merchant/billing/gateways/square_connect.rb:45 | a new hash holds exactly the given members |
| `Json.Hash.Assign` | lib/active_merchant/billing/gateways/square_connect.rb:34 | assignment in place leaves the hash equal to `Set` of its old contents |
| `Json.SetFind` | lib/active_merchant/billing/gateways/square_connect.rb:34 | after `h[k] = v`, k holds v and every other key its old value |
| `Json.SetKeys` | lib/active_merchant/billing/gateways/square_connect.rb:34 | `h[k] = v` leaves the keys unchanged when k was present, and appends k otherwise |
| `Json.SetKeepsUniqueKeys` | lib/active_merchant/billing/gateways/square_connect.rb:34 | assignment keeps a hash's keys distinct |
| `Json.SetAppends` | lib/active_merchant/billing/gateways/square_connect.rb:34 | assigning a new key appends exactly one member |
| `Json.SetAllAppends` | lib/active_merchant/billing/gateways/square_connect.rb:103-109 | assigning members under new distinct keys appends them in order |
| `Normalizer.JsonError` | lib/active_merchant/billing/gateways/square_connect.rb:157-170 | the synthetic body has the single key "errors" |
| `Normalizer.Parse` | lib/active_merchant/billing/gateways/square_connect.rb:151-155 | a JSON body parses to its hash; any other body gives the synthetic error body |
| `Normalizer.Normalize` | lib/active_merchant/billing/gateways/square_connect.rb:181-194 | success is "no errors key"; the reply is kept; AVS 'D' and CVV 'M'; an approval is "Transaction Approved" with no error code; a failure has no authorization |
| `Normalizer.MessageFrom` | lib/active_merchant/billing/gateways/square_connect.rb:216-223 | an approval gives "Transaction Approved", and only an approval does, since an error's "category: detail" always holds a colon |
| `Normalizer.AuthorizationFrom` | lib/active_merchant/billing/gateways/square_connect.rb:225-232 | a token, or a raise, needs an approval with a truthy transaction; an approval whose transaction holds an array of hash tenders always gives a token |
| `Normalizer.ErrorCodeFrom` | lib/active_merchant/billing/gateways/square_connect.rb:239-245 | an approval has no error code, and any code given is an entry of the table |
| `Normalizer.TenderPairsOfObjects` | lib/active_merchant/billing/gateways/square_connect.rb:229-231 | object tenders each give their transaction id and id joined by a bar, in order |
| `Normalizer.SuccessfulTransaction` | lib/active_merchant/billing/gateways/square_connect.rb:225-232 | an approval with a transaction is authorised by the ';'-joined tender pairs |
| `Normalizer.SuccessWithoutTransaction` | lib/active_merchant/billing/gateways/square_connect.rb:227 | an approval without a transaction has no authorization |
| `Normalizer.ErrorReply` | lib/active_merchant/billing/gateways/square_connect.rb:216-245 | an error reply's message is "category: detail" of its first error, and its error code is the table's entry for that error's code |
| `Normalizer.DeclinedCard` | lib/active_merchant/billing/gateways/square_connect.rb:20 | CARD_DECLINED gives a failure with the card-declined code |
| `Normalizer.UnmappedCodeFailsOpen` | lib/active_merchant/billing/gateways/square_connect.rb:239-245 | an unknown code gives a failure with no error code, and raises nothing |
| `Normalizer.EmptyErrorListRaises` | lib/active_merchant/billing/gateways/square_connect.rb:220-221 | an empty error list raises NoMethodError while the message is built |
| `Normalizer.UnparseableBody` | lib/active_merchant/billing/gateways/square_connect.rb:151-170 | a body that is not JSON yields a failure whose message embeds the inspected body |
| `Normalizer.UnparseableBodyRecoverable` | lib/active_merchant/billing/gateways/square_connect.rb:157-161 | the raw body can be read back from that message: inspect loses nothing |
| `Normalizer.EmptyBodyMessage` | test/remote/gateways/remote_square_connect_test.rb:46-49 | the empty body gives exactly the message the remote test expects |
| `Payload.SymbolField` | lib/active_merchant/billing/gateways/square_connect.rb:124-129 | `address[:field]` reads a hash and raises on any other value |
| `Payload.SquareAddress` | lib/active_merchant/billing/gateways/square_connect.rb:123-130 | an address is renamed exactly when it is a hash |
| `Payload.AddInvoice` | lib/active_merchant/billing/gateways/square_connect.rb:134-139 | post gains amount_money |
| `Payload.AddPayment` | lib/active_merchant/billing/gateways/square_connect.rb:141-143 | post gains card_nonce |
| `Payload.AddAddress` | lib/active_merchant/billing/gateways/square_connect.rb:120-132 | the loop over both address types leaves post as the address step does, or stops with the step's fault |
| `Payload.AddCustomerData` | lib/active_merchant/billing/gateways/square_connect.rb:115-118 | post gains customer_id only when it is present |
| `Payload.AddIdempotencyKey` | lib/active_merchant/billing/gateways/square_connect.rb:111-113 | post gains idempotency_key |
| `Payload.AddOptionalData` | lib/active_merchant/billing/gateways/square_connect.rb:103-109 | the loop writes the four optional members as the optional step does |
| `Payload.BuildCharge` | lib/active_merchant/billing/gateways/square_connect.rb:45-51 | building in place gives the charge payload function's result |
| `Payload.BuildRefund` | lib/active_merchant/billing/gateways/square_connect.rb:66-70 | building in place gives the refund payload function's result |
| `Payload.AmountMoneyFields` | lib/active_merchant/billing/gateways/square_connect.rb:134-139 | amount_money holds the amount, and the option's currency or else USD |
| `Payload.AddressRenaming` | lib/active_merchant/billing/gateways/square_connect.rb:123-130 | a renamed address has Square's six field names, each holding the matching ActiveMerchant field |
| `Payload.ChargePayloadShape` | lib/active_merchant/billing/gateways/square_connect.rb:43-51 | with well-formed addresses the charge payload is exactly amount, nonce, addresses, customer, then the five tail members |
| `Payload.ChargePayloadFields` | lib/active_merchant/billing/gateways/square_connect.rb:43-51 | the charge payload has distinct keys and carries amount, nonce, idempotency key, email as buyer_email_address, reference id, note and delay_capture |
| `Payload.ChargePayloadCustomer` | lib/active_merchant/billing/gateways/square_connect.rb:115-118 | customer_id is sent exactly when present, and then as a string |
| `Payload.ChargePayloadAddress` | lib/active_merchant/billing/gateways/square_connect.rb:120-132 | an address type is sent exactly when its option is set, and then renamed |
| `Payload.ChargePayloadKeys` | lib/active_merchant/billing/gateways/square_connect.rb:43-51 | the charge payload's keys in order, with the address and customer keys only when written |
| `Payload.MalformedBillingRaises` | lib/active_merchant/billing/gateways/square_connect.rb:122-124 | a billing address that is set but is not a hash makes charge raise |
| `Payload.RefundPayloadMembers` | lib/active_merchant/billing/gateways/square_connect.rb:66-70 | the refund payload is exactly idempotency_key, tender_id, reason, amount_money, in that order, with distinct keys |
| `RubyStrings.Split` | lib/active_merchant/billing/gateways/square_connect.rb:57 | no field holds the separator, the last field is never empty, and the fields joined by the separator give back the string up to trailing separators |
| `RubyStrings.JoinDropped` | lib/active_merchant/billing/gateways/square_connect.rb:57 | dropping trailing empty fields shortens the joined text only by trailing separators |
| `RubyStrings.JoinPieces` | lib/active_merchant/billing/gateways/square_connect.rb:57 | joining the fields of a split, before trailing empty fields are dropped, gives the string back |
| `RubyStrings.SplitFirst` | lib/active_merchant/billing/gateways/square_connect.rb:57 | the text before the first separator is the first field |
| `RubyStrings.SplitPair` | lib/active_merchant/billing/gateways/square_connect.rb:57 | two separator-free non-empty fields round-trip through split |
| `RubyStrings.SplitTrailing` | lib/active_merchant/billing/gateways/square_connect.rb:57 | a trailing separator leaves no empty last field |
| `RubyStrings.NatToSRoundTrip` | lib/active_merchant/billing/gateways/square_connect.rb:230 | Integer#to_s writes a number that reads back as itself |
| `RubyStrings.InspectRoundTrip` | lib/active_merchant/billing/gateways/square_connect.rb:160 | String#inspect can be read back to the original string |
| `RubyStrings.Inspect` | lib/active_merchant/billing/gateways/square_connect.rb:160 | the result is quoted and holds no non-printable character: controls, DEL, the C1 controls and the line and paragraph separators are all escaped |
| `RubyStrings.InspectNextLine` | lib/active_merchant/billing/gateways/square_connect.rb:160 | the C1 control NEL is written as the escape `\u0085` |
| `RubyStrings.InspectPlain` | lib/active_merchant/billing/gateways/square_connect.rb:160 | a string of printable ASCII without quotes, backslashes or '#' is inspected as itself in quotes |
| `RubyValues.At0` | lib/active_merchant/billing/gateways/square_connect.rb:220 | `errors[0]` is the first error of a non-empty array, and raises only on nil, true or false |
| `RubyValues.Field` | lib/active_merchant/billing/gateways/square_connect.rb:221 | `v['key']` reads a hash, and raises exactly on values other than hashes and strings |
| `RubyValues.ToS` | lib/active_merchant/billing/gateways/square_connect.rb:221 | interpolating a string gives it, and nil gives the empty string |
| `Scrubber.Gsub` | lib/active_merchant/billing/gateways/square_connect.rb:95-98 | text in which the pattern's prefix cannot start, even partly, comes back unchanged |
| `Scrubber.Scrub` | lib/active_merchant/billing/gateways/square_connect.rb:94-98 | a transcript in which none of the three prefixes can start comes back unchanged |
| `Scrubber.GsubCopiesUnmatched` | lib/active_merchant/billing/gateways/square_connect.rb:95-98 | gsub copies text in which no match starts |
| `Scrubber.GsubFirstMatch` | lib/active_merchant/billing/gateways/square_connect.rb:95-98 | gsub replaces the first match's window by "[FILTERED]" behind its kept prefix and resumes after it |
| `Scrubber.ScrubTranscript` | test/unit/gateways/square_connect_test.rb:68-71 | the unit test's location id, bearer token and card nonce, set in any text in which none of the three prefixes starts, even partly, are each filtered and nothing else changes |
| `Scrubber.ThreePasses` | lib/active_merchant/billing/gateways/square_connect.rb:94-98 | three windows, in location, token, nonce order, around text free of every prefix, where no prefix can start inside another prefix, a window or the marker, are each filtered by the three passes and nothing else changes |
| `Scrubber.Step` | lib/active_merchant/billing/gateways/square_connect.rb:95-98 | a match between two stretches in which the prefix cannot start is filtered, and everything else is copied |
| `Scrubber.FreeNoMatch` | lib/active_merchant/billing/gateways/square_connect.rb:95-98 | no match starts in text where the prefix cannot start, whatever follows it |
| `Scrubber.FreeConcat` | lib/active_merchant/billing/gateways/square_connect.rb:95-98 | two stretches free of a prefix stay free of it when joined |
| `Scrubber.HeadFree` | lib/active_merchant/billing/gateways/square_connect.rb:95-98 | a character that is not the prefix's first, or that is but is followed by a mismatch, keeps a prefix-free text prefix-free |
| `Scrubber.StatusLineUnmatched` | test/unit/gateways/square_connect_test.rb:78 | the request line's `HTTP/1.1\r\n`, as the %q literal keeps it, holds no start of the three prefixes |
| `Scrubber.AcceptHeaderUnmatched` | test/unit/gateways/square_connect_test.rb:78 | the transcript's `Accept: */*` header holds no start of the three prefixes, although it begins with the bearer prefix's 'A' |
| `Scrubber.CountryUnmatched` | test/unit/gateways/square_connect_test.rb:79 | the body's escaped `\"CA\"},` holds no start of the three prefixes, although its 'A' is followed by a backslash |
| `Scrubber.ScrubNotIdempotent` | lib/active_merchant/billing/gateways/square_connect.rb:94-98 | the any-character nonce window makes a second scrub change an already scrubbed transcript |

## Left out

- HTTP: `ssl_request`, TLS and the network are the transport parameter. Which replies raise `ResponseError` is not modelled, because `api_request` parses their bodies the same way.
- `post_data`'s `to_json` is not modelled: the request carries the payload hash itself, and serialising it is the JSON library's job.
- `JSON.parse` is the parser parameter, which yields hashes only. A body that parses to a top-level array or scalar is not modelled.
- ActiveMerchant's base class is not part of this model. `requires!` is modelled as a key-presence check. `amount` is modelled as the integer cents and `currency` as USD. `test?` is a flag, and `MultiResponse` is modelled as its first-response rule inside `verify`.
- The class-level settings are not modelled: supported countries, card types, homepage, display name, and `supports_scrubbing?` (which is constant true).
- `SquareConnect.Gateway.TokenSize`: the size of an Integer access token is modelled as 8 bytes; bignums are not modelled.
- `Scrubber.ScrubTranscript`: the text between the three secrets is a parameter, not the unit test's literal. That its pieces hold no start of a prefix is proved only for representative fragments (`StatusLineUnmatched`, `AcceptHeaderUnmatched`, `CountryUnmatched`), because the literal is too long to evaluate whole.
- `SquareConnect.GatewayScrubsTranscript`: as for `ScrubTranscript`, the surrounding text is a parameter that holds no start of a prefix.
- `RubyStrings.Inspect`: the ASCII controls, DEL, the C1 controls and U+2028/U+2029 are escaped, as Ruby does for a UTF-8 string. Unassigned code points and the other non-printable characters are copied. Characters beyond the Basic Multilingual Plane (which Ruby writes as `\u{...}`) are not modelled. Neither is a binary body, whose bytes above 0x7F Ruby writes as `\xNN`.
- JSON numbers are integers. `JSON.parse` can yield Floats, and a reply holding one is not modelled.
- `Json.Hash` does not forbid duplicate keys, which a Ruby hash cannot hold. The lemmas that need distinct keys require `UniqueKeys`, or prove that `Set` keeps it.
- `Scrubber.GsubFirstMatch`: regular expressions in general are not modelled, only the three fixed-width patterns `scrub` uses, and `\w`, `\S` and `[a-zA-Z\d]` over ASCII.
- `Payload.ChargePayloadFields`: the address and customer members are stated by `ChargePayloadAddress` and `ChargePayloadCustomer`, and only for options whose addresses are nil, false or hashes; other address values raise, as `MalformedBillingRaises` states for the billing address.
- The test helpers that create card nonces (`test/square_connect/card_nonce.rb`, `test/square_connect_card_nonce.rb`) are not part of this model.
