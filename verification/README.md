# Paid content over Lightning: a verified model

The system sells content over Lightning. Aperture mints L402 tokens and checks them on every request. A relay
wraps the creator's invoice in a hold invoice with the same payment hash, pays the creator once the buyer's
money is locked in, and settles the hold invoice with the preimage that payment returned. The client library
pays challenges by itself and remembers its tokens in two files. A mailbox server ("hashmail") carries framed
messages between two parties.

The project models these parts in Dafny and proves what they promise together. `dafny verify dfyconfig.toml`
checks all of it.

| file | part |
|---|---|
| `RelayWrap.dfy` | `wrap`: amounts, expiry and CLTV in uint64 arithmetic |
| `RelayCircuits.dfy` | `OpenCircuit` and `circuitSwitch` as a step relation with the lnd node; circuit coupling |
| `RelayFunds.dfy` | what the relay earns and risks over every run, and for exactly which inputs it is funded |
| `RelayTimelocks.dfy` | the gap between the two HTLCs, and why a paid circuit can still settle |
| `Caveats.dfy`, `Identifiers.dfy`, `Mint.dfy` | caveat chains, identifiers, minting and verifying |
| `Header.dfy` | how a credential travels |
| `TokenCodec.dfy`, `TokenStore.dfy`, `ClientPayments.dfy` | the paying client, its files, crashes at every step |
| `InvoiceCache.dfy`, `InvoiceWait.dfy` | the challenger's cache and the condition-variable wait |
| `EndToEnd.dfy`, `EndToEndRuns.dfy` | all of the above in one run: access only after payment; two runs spelled out |
| `HashmailFraming.dfy`, `HashmailStreams.dfy` | message framing over two pipes; stream tokens and the stale timer |
| `Words.dfy`, `Text.dfy`, `Hex.dfy`, `Base64.dfy` | integers of fixed width, Go string functions, encodings |

How the model is set up:

- A protocol is a step relation (`Next`) over a state, with one action for each thing that can happen between
  two observable moments, including lnd's own steps, lost replies, failed writes and process death. A `Run` is
  any sequence of such steps from the initial state, and the main results speak about every run.
- Code that updates state in place is a class or a method with loops, proved equal to a function on values;
  the laws are then proved about that function.
- SHA-256 is an arbitrary function `sha`. A macaroon signature is a free algebra, `Root(secret, id)` or
  `Step(sig, caveat)`; an outsider can append caveats to a signature he has seen and sign with keys he holds.
- The clock, randomness, lnd's answers, the service limiter and the outcome of every disk operation are inputs
  or actions of the environment.

Results that contradict the repository's own documentation or the evident intent of its code; the model follows
the code in each:

- `lnproxy/README.md:88` says that at most `MaxAmountMsat` is in limbo at any time. That holds for each circuit
  (`RelayFunds.LimboPerCircuit`) and fails for the total (`RelayFunds.LimboUnbounded`).
- A custom routing fee near 2^64 wraps the quoted amount around (`RelayWrap.LargestOfferUnderquotes`), and the
  relay can end such a circuit with a loss (`RelayFunds.LossOfOneMsat`). Funds are conserved exactly for the
  inputs that `RelayWrap.Funded` describes (`RelayFunds.FundsConserved`, `RelayFunds.UnfundedFallsShort`).
- The expiry guard of `wrap` tests the expiry before it is clamped (`RelayWrap.ClampedExpiryWraps`);
  `RelayWrap.ExpiryExact` gives the exact condition.
- The challenger's routing offer is computed from satoshis and read as millisatoshis, so the relay refuses it
  above 8000 satoshis (`RelayWrap.FeeAgreement`).
- A hashmail message whose frame is a multiple of 4096 bytes long swallows the next one
  (`HashmailFraming.DeliveredIff`).
- A hashmail stream in use can have its stale timer running against it, or be removed by a callback that had
  already fired (`HashmailStreams.TornUnderItsReader`, `HashmailStreams.DisturbedReturnArmsTimer`). There are
  exactly three races behind this (`HashmailStreams.NeverEndangered`, `HashmailStreams.UngentleEndangers`): taking a
  token after the timer has fired, since the result of stopping it is ignored; the timer firing before a taking is
  reported; and a return reported after the token has been taken again.
- A stale callback finds its stream by id, so the callback of a removed stream can take away a successor that is
  in use (`HashmailStreams.StaleCallbackHitsSuccessor`).
- A client that dies between storing a pending token and sending its payment leaves a store no later call can use
  (`ClientPayments.DeathBeforeSending`); `ClientPayments.WedgedIff` says exactly which stores are in that state.
- Listing the invoices at start records no settle date, and the subscription begins after the settlements
  listed. A token whose invoice settled while the challenger was down is therefore never accepted
  (`EndToEnd.SettledWhileDownIsRefused`, with a run in `EndToEndRuns.SettledWhileDown`).
- A token minted for no service verifies for every service (`Mint.NoServicesUnrestricted`).

## Model

| member | source | states |
|---|---|---|
| `EndToEnd.AcceptedMeansPaid` | aperture/auth/authenticator.go:26-84 | in every run, however other steps fall between its reads: if `Accept` grants, the hold invoice behind the preimage settled before `VerifyInvoiceStatus` answered, at most 3600 seconds before the clock reading, and from that step on the outgoing payment of that hash has succeeded for the amount of the creator's invoice |
| `EndToEnd.AcceptedMeansIssued` | aperture/mint/mint.go:267-310 | and a credential made from issued tokens extends one of them, minted for that payment hash and, if it names delimiter-free services, for the target |
| `EndToEnd.StatusMeansSettled` | aperture/challenger/lnproxy.go:412-488 | `VerifyInvoiceStatus` reports SETTLED only of a hold invoice that is settled at lnd, through restarts, delayed and repeated updates |
| `EndToEnd.PaidInTime` | aperture/challenger/lnproxy.go:492-508 | a settle date read from the secret store and found within the hour vouches for the payment |
| `EndToEnd.SettleMoment` | aperture/challenger/lnproxy.go:250-251 | the settle date lnd reports is the time of the step that settled the invoice |
| `EndToEnd.DatedIffStamped` | aperture/challenger/lnproxy.go:249-254 | in every run a secret's row has a settle date iff the stream reader recorded the settlement at an earlier step at which the row was there |
| `EndToEnd.AcceptedWasStamped` | aperture/challenger/lnproxy.go:490-508 | whoever is accepted, the stream reader has recorded that settlement for a row of his payment hash |
| `EndToEnd.SettledWhileDownIsRefused` | aperture/challenger/lnproxy.go:95-160 | if a hold invoice is settled and no row of it is dated when the challenger starts, no token for it is accepted at any later time, through any further restarts |
| `EndToEndRuns.SettledWhileDown` | aperture/challenger/lnproxy.go:95-160 | for any invoice, token and hash function there is such a run: creator paid, cache SETTLED, secret known, settlement missed |
| `EndToEndRuns.PaidIsAccepted` | aperture/auth/authenticator.go:43-84 | for any invoice, token and target the token allows, there is a run in which the buyer is let in |
| `EndToEnd.AcceptedIff` | aperture/auth/authenticator.go:43-84 | in every run a token minted earlier, whose invoice is reported settled and whose query returns a stamped row, is accepted iff the preimage pays its challenge, the token allows the target, and at most an hour has passed since lnd's settle date |
| `EndToEnd.LaterInRun` | aperture/aperturedb/secrets.go:91-175 | every later state of the store keeps identifiers, secrets and their uniqueness, so tokens minted stay verifiable |
| `EndToEnd.StampedStaysDated` | aperture/challenger/lnproxy.go:249-254 | a secret present when a settlement is recorded carries lnd's settle date ever after |
| `EndToEnd.StepKeepsInv` | aperture/challenger/lnproxy.go:244-261 | every step of relay, lnd, challenger, mint and clock keeps log, cache versions and rows true to lnd, and settle dates are permanent |
| `EndToEnd.Accept` | aperture/auth/authenticator.go:43-84 | grants exactly when the header presents a credential that verifies, the last cache read was SETTLED and the settle date is within the hour |
| `EndToEndRuns.AnOrder` | aperture/mint/mint.go:118-173 | the premises of both runs can be met: default parameters, any hash function, preimage and secret, any delimiter-free service name |
| `RelayFunds.FundsConserved` | lnproxy/relay.go:165-237 | in every state of every run whose accepted inputs are funded, over every interleaving and with crashes anywhere: balance >= start + true routing fees of settled circuits - (amount + fee budget) of paid-but-unsettled ones |
| `RelayFunds.FinishedWithoutLoss` | lnproxy/relay.go:200-237 | in such a run, when every circuit has run to its end, the balance is at least the start plus all fees earned |
| `RelayFunds.UnfundedFallsShort` | lnproxy/relay.go:165-237 | the condition is exact: any input `wrap` accepts can be relayed to its end, and the balance then meets the bound iff the input is funded |
| `RelayFunds.LossOfOneMsat` | lnproxy/relay.go:166-171 | with default parameters and the largest offer a circuit settles and finishes with the relay one msat below its start |
| `RelayFunds.ExactQuoteIff` | lnproxy/relay.go:165-195 | every circuit of every run was opened by some input, and its invoice covers amount, budget and true routing fee iff that input is funded |
| `RelayFunds.LimboPerCircuit` | lnproxy/README.md:84-89 | principal in limbo is at most MaxAmountMsat times the number of circuits in limbo |
| `RelayFunds.LimboUnbounded` | lnproxy/README.md:84-89 | the total is not bounded by MaxAmountMsat: for any hash function and any n preimages with different hashes, a run that ends in a crash leaves n times that in limbo |
| `RelayCircuits.CircuitCoupling` | lnproxy/relay.go:187-234 | in every reachable state a hash has at most one circuit, and a settled hold invoice was settled with the preimage its own outgoing payment returned, which hashes to it, for at least the quoted value |
| `RelayCircuits.NeverCancelsPaid` | lnproxy/relay.go:203-226 | a hold invoice the relay cancels has, then and at every later step, no outgoing payment that succeeded or is in flight |
| `RelayCircuits.CanceledEverAfter` | lnproxy/relay.go:203-226 | after a failed payment, or a failed watch that did not see the invoice canceled, whose `CancelInvoice` call works, a hold invoice that was open or accepted is canceled, then and ever after |
| `RelayCircuits.FinishedReleases` | lnproxy/relay.go:200-237 | a circuit that has run to its end leaves its hold invoice open or accepted only if a `CancelInvoice` call for it failed |
| `RelayCircuits.FailedCanCancel` | lnproxy/relay.go:220-226 | a running circuit whose payment failed can take the step that cancels its hold invoice and ends it |
| `RelayCircuits.PanicEndsCircuits` | lnproxy/relay.go:227-234 | a panic stops the process, and every circuit that had not finished is lost for good, through any restarts |
| `RelayCircuits.FinalAlongRun` | lnproxy/relay.go:206-234 | settled and canceled hold invoices never change again |
| `RelayCircuits.StepKeepsInv` | lnproxy/relay.go:181-237 | every step of relay and lnd keeps circuits, hold invoices and payments coupled, and the balance equal to the start plus the net of all circuits |
| `RelayTimelocks.TimelockGap` | lnproxy/relay.go:158-219 | in every state of every run, for a sent payment of a circuit whose reported delta is at least the quoted one and whose route estimate did not wrap: the CLTV limit is at least route + Beta, and the outgoing HTLC expires at least Alpha blocks before the incoming one, less the blocks mined between report and payment |
| `RelayTimelocks.SuccessLeavesTime` | lnproxy/relay.go:214-231 | if lnd cancels accepted invoices only within a margin of their expiry and payments resolve by theirs, a payment succeeds while the hold invoice is still accepted and time is left to settle it |
| `RelayTimelocks.PaidCanSettle` | lnproxy/relay.go:227-235 | until that time is used up, a running relay settles a paid circuit with its next steps |
| `RelayWrap.QuoteConserved` | lnproxy/relay.go:165-175 | both fee branches quote amount + budget + routing fee modulo 2^64, exact iff the sum fits; a custom fee leaves at least MinFeeBudgetMsat unless the guard's own sum wraps |
| `RelayWrap.WrapAccepts` | lnproxy/relay.go:89-176 | `wrap` accepts exactly: decoded, nonzero amount in range, route found, only the eleven known features, hexadecimal hashes, not both descriptions, not expiring too soon, CLTV delta modulo 2^64 below the maximum, and an offer at or above the floor |
| `RelayWrap.DefaultAccepts` | lnproxy/relay.go:43-66 | the same with the default parameters, in numbers |
| `RelayWrap.WrapTerms` | lnproxy/relay.go:122-163 | the hash, the memo and description hash in each of the five cases, and the CLTV delta raised to the minimum |
| `RelayWrap.QuoteExact` | lnproxy/relay.go:165-175 | for any parameters, every uint64 term of a quote equals the unbounded-integer one iff the input is funded and, without an offer, the budget term does not wrap |
| `RelayWrap.QuoteFunded` | lnproxy/relay.go:165-175 | the quoted value never exceeds amount + budget + true routing fee, and equals it iff the input is funded |
| `RelayWrap.DefaultFunded` | lnproxy/relay.go:43-66 | with the default parameters an offer is funded iff it is below 2^64 minus the amount, and an estimate of up to 10^12 msat always is |
| `RelayWrap.LargestOfferUnderquotes` | lnproxy/relay.go:166-171 | the largest offer is accepted and quotes less than the relay must pay |
| `RelayWrap.ExpiryExact` | lnproxy/relay.go:149-156 | the wrapped invoice ends ExpiryBuffer before the clamped end of the original iff that moment is not past at the second clock reading and less than 2^64 seconds away |
| `RelayWrap.ExpiryGuarded` | lnproxy/relay.go:149-156 | with one clock reading and no clamping the guard suffices |
| `RelayWrap.ClampedExpiryWraps` | lnproxy/relay.go:149-156 | a long-lived old invoice passes the guard and gets a wrapped-around expiry |
| `RelayWrap.CltvLimitCoversRoute` | lnproxy/relay.go:158-163 | the CLTV limit is a true difference iff the reported delta covers Alpha; if the delta is at least the quoted one it does, and leaves the estimated route plus Beta |
| `RelayWrap.FeeAgreement` | aperture/challenger/lnproxy.go:283-290 | with default parameters the challenger's offer for an invoice of exactly the price passes the relay's checks iff the price is 10 to 8000 satoshis |
| `RelayWrap.OfferAt` | aperture/challenger/lnproxy.go:283-290 | the offer is three percent of the price taken as millisatoshis, and at least 10 000 |
| `Caveats.Attenuation` | aperture/lsat/caveat.go:101-142 | accepting a list of caveats with more appended implies accepting the list, for satisfiers that demote |
| `Caveats.SatisfiersDemote` | aperture/lsat/satisfier.go:36-178 | the services, capabilities and timeout satisfiers demote: whatever a later caveat in accordance allows, the earlier one allowed |
| `Caveats.AcceptedChain` | aperture/lsat/satisfier.go:39-178 | in an accepted list every services caveat names the target and every timeout for it lies after now |
| `Caveats.AcceptedTimeouts` | aperture/lsat/satisfier.go:129-178 | in an accepted list every timeout for the target gives a number, and the clock in Unix seconds has not reached it |
| `Caveats.AcceptedServices` | aperture/lsat/satisfier.go:36-78 | in an accepted list every services caveat decodes to a list that has the target |
| `Caveats.AcceptedCapabilities` | aperture/lsat/satisfier.go:84-120 | under the capabilities satisfier every such caveat lists the target between commas |
| `Caveats.CapabilitiesPair` | aperture/lsat/satisfier.go:84-120 | two capabilities caveats are accepted iff the second lists nothing new and lists the target |
| `Caveats.TimeoutHoldsIff` | aperture/lsat/satisfier.go:160-176 | a timeout holds iff it parses, lies after the clock, and its count of seconds from year 1 fits an int64 |
| `Caveats.TimeoutShrinksIff` | aperture/lsat/satisfier.go:132-158 | one timeout may follow another iff its number is not larger |
| `Caveats.NarrowerServices` | aperture/lsat/satisfier.go:39-64 | one delimiter-free services caveat may follow another iff it names no service the other does not |
| `Caveats.LastInForce` | aperture/lsat/caveat.go:104-107 | of several satisfiers for a condition the last is in force |
| `Caveats.TokenVerifiedIff` | aperture/mint/mint.go:305-309 | the services chain and the target's timeout chain decide, independently of all other caveats |
| `Caveats.VerifyCaveats` | aperture/lsat/caveat.go:101-142 | accepts iff, for the satisfier in force for each condition, the chain of that condition is pairwise in accordance and its last element holds |
| `Caveats.Relevant` | aperture/lsat/caveat.go:108-116 | groups the caveats of known conditions in order |
| `Caveats.VerifyChain` | aperture/lsat/caveat.go:124-138 | accepts a chain iff it is pairwise in accordance and its last element holds |
| `Caveats.CheckServicesShrink` | aperture/lsat/satisfier.go:39-64 | accepts iff both values decode and the later names no new service |
| `Caveats.CheckServicesAllow` | aperture/lsat/satisfier.go:65-77 | accepts iff the value decodes and names the target |
| `Caveats.CheckCapabilitiesShrink` | aperture/lsat/satisfier.go:89-111 | accepts iff the later value lists no new capability |
| `Caveats.CaveatRoundTrip` | aperture/lsat/caveat.go:47-59 | decoding an encoded caveat returns it iff its condition holds no "=" |
| `Caveats.ServicesRoundTrip` | aperture/lsat/service.go:76-130 | decoding an encoded list returns names and tiers iff no name holds a delimiter |
| `Caveats.TierTruncated` | aperture/lsat/service.go:118-126 | a tier beyond a byte is read modulo 256 |
| `Caveats.EncodeServices` | aperture/lsat/service.go:76-96 | the builder loop produces the comma-joined items, or the errors for no service and a missing name |
| `Caveats.DecodeServices` | aperture/lsat/service.go:100-130 | the splitting loop produces the decoded items or the first error |
| `Mint.TokenSoundness` | aperture/mint/mint.go:267-310 | whatever tokens somebody has seen and whatever he appends, a credential verifies only if it extends an issued token, its preimage pays that token's hash, and the target is among its services |
| `Mint.TokenCompleteness` | aperture/mint/mint.go:118-310 | the macaroon `MintL402` returned, presented to the store it was minted in at any later time, verifies iff the preimage pays its challenge, the services chain (its own caveat, then the limiter's) allows the target, and the limiter's timeouts for it are in order and ahead; with delimiter-free names and no services caveat from the limiter the chain allows exactly the services minted |
| `Mint.MintedCaveats` | aperture/mint/mint.go:221-250 | the raw caveats of the macaroon returned: the services, then the limiter's capabilities, constraints and timeouts, each as condition, "=" and value |
| `Mint.LimiterTimeoutBinds` | aperture/mint/mint.go:240-248 | once the clock reaches a timeout the limiter returned for the target, or if it is no number, neither the macaroon returned nor any extension of it verifies for that target |
| `Mint.MintKeepsStore` | aperture/mint/mint.go:118-173 | every mint only appends to the store, keeps identifier hashes and secrets unique, and issues well-made tokens |
| `Mint.SecretFound` | aperture/aperturedb/secrets.go:151-175 | in a store with unique columns every secret is found by its identifier hash |
| `Mint.MintDetermined` | aperture/mint/mint.go:118-189 | the outcome of minting, success or failure, is determined by the store and what the collaborators return |
| `Mint.MintSucceedsIff` | aperture/mint/mint.go:118-173 | minting succeeds iff there are a challenge for the highest price, a token ID and a secret, the insert works, both unique columns are free and, for any services, all are named and the limiter answers |
| `Mint.MintedRow` | aperture/mint/mint.go:134-144 | the row added is found by the token's identifier and holds the hash of its challenge and no settle date; the identifier decodes to that hash |
| `Mint.FailedMint` | aperture/mint/mint.go:148-170 | a mint that fails issues nothing, and leaves nothing in the store unless revoking failed too |
| `Mint.NoServicesUnrestricted` | aperture/mint/mint.go:154-172 | a token minted for no services verifies for every target iff the preimage is right |
| `Mint.ExtendsIssued` | aperture/mint/mint.go:282-291 | a derivable signature valid under a secret nobody else holds extends an issued token |
| `Mint.BoundByIssue` | aperture/mint/mint.go:295-309 | the services caveat of an issued token binds every accepted extension |
| `Mint.NamedService` | aperture/lsat/satisfier.go:65-77 | a delimiter-free services caveat allows exactly the services it was made of |
| `Mint.VerifyL402` | aperture/mint/mint.go:267-310 | accepts iff the identifier decodes, the preimage hashes to it, the secret is known, the signature is over all caveats, and the readable caveats verify |
| `Mint.Minter.MintL402` | aperture/mint/mint.go:118-173 | succeeds iff there is a challenge for the highest price and a token ID, the store takes the row and all restrictions can be had, and then adds exactly that row and token; otherwise issues nothing, and leaves a row only if revoking it failed |
| `Mint.Minter.NewSecret` | aperture/aperturedb/secrets.go:91-120 | adds one row iff a secret was drawn, the insert works and both unique columns are free |
| `Mint.PaymentDetailsForMaxPrice` | aperture/mint/mint.go:177-189 | price and recipient of the first most expensive service, or nobody at zero |
| `Mint.UniqueIdentifier` | aperture/mint/mint.go:193-210 | the identifier bytes decode to version 0, the payment hash and the token ID |
| `Mint.CaveatsForServices` | aperture/mint/mint.go:221-250 | fails iff the services do not encode or the limiter fails; else the services caveat first, then the limiter's |
| `Mint.FirstToken` | aperture/mint/mint.go:145-172 | the macaroon over the fresh secret with exactly the first restrictions, failing iff they cannot be had |
| `Mint.AddFirstPartyCaveats` | aperture/lsat/caveat.go:62-71 | appends the encoded caveats in order and keeps the identifier |
| `Header.HeaderRoundTrip` | aperture/lsat/header.go:43-143 | `FromHeader` returns the macaroon and preimage `SetHeader` was given, whatever else the header holds |
| `Header.CredentialEquivalence` | aperture/lsat/token.go:80-89 | the paid macaroon alone and macaroon with preimage are both read back, and one verifies exactly when the other does |
| `Header.HttpHeader.FromHeader` | aperture/lsat/header.go:43-126 | what the three fields present, in their order of precedence, or nothing |
| `Header.AuthMatches` | aperture/lsat/header.go:30-31 | the pattern takes macaroon and preimage out of a field, after anything without an L and before anything at all |
| `Header.FindAuthSound` | aperture/lsat/header.go:30 | what is found stands in the field: marker, macaroon, colon and 64 lower-case digits |
| `Header.AuthorizationField` | aperture/lsat/header.go:49-86 | an Authorization field with macaroon and preimage is read back, whatever the other fields hold |
| `Header.MacaroonFields` | aperture/lsat/header.go:88-125 | without it Grpc-Metadata-Macaroon, and without that Macaroon, is read back from the paid macaroon in base 16 |
| `Header.PaidCaveat` | aperture/lsat/token.go:80-89 | the paid macaroon is the base macaroon with "preimage=" and the preimage in base 16 appended |
| `Header.PreimageIff` | aperture/lsat/header.go:119-123 | exactly the strings of 64 hexadecimal digits are preimages |
| `Header.HasCaveat` | aperture/lsat/caveat.go:76-93 | the value of the last readable caveat of the condition |
| `Base64.RoundTrip` | aperture/lsat/header.go:67 | decoding padded base 64 (RFC 4648 section 4) undoes encoding |
| `Base64.EncodeGroup` | aperture/lsat/header.go:137-140 | three bytes make four symbols, high bits first |
| `Base64.LineBreaksIgnored` | aperture/lsat/header.go:67 | line breaks make no difference to decoding |
| `Base64.WholeGroups` | aperture/lsat/header.go:67 | only whole groups of four characters decode |
| `Hex.RoundTrip` | aperture/lsat/header.go:103 | decoding base 16 (RFC 4648 section 8) undoes encoding |
| `Hex.EncodeAt` | aperture/lsat/header.go:137-140 | each byte is two lower-case digits, the high one first |
| `Hex.DecodesIff` | aperture/lsat/header.go:103 | exactly the strings of an even number of hexadecimal digits, of either case, decode |
| `Text.IntRoundTrip` | aperture/lsat/service.go:153 | a decimal int64 parses back |
| `Text.ParsesOnlyDigits` | aperture/lsat/satisfier.go:133 | only an optional sign and at least one digit parse |
| `Identifiers.AcceptedIdentifiers` | aperture/lsat/identifier.go:100-128 | `DecodeIdentifier` accepts exactly the version-0 inputs of at least 35 bytes |
| `Identifiers.IdentifierRoundTrip` | aperture/lsat/identifier.go:79-128 | decoding an encoded version-0 identifier returns it |
| `Identifiers.IdentifierLayout` | aperture/lsat/identifier.go:100-128 | version, payment hash and token ID by byte position, the token ID of a short input padded with zeros |
| `Identifiers.EncodedLayout` | aperture/lsat/identifier.go:79-97 | the 66 bytes of an encoded identifier |
| `Identifiers.EncodeIdentifier` | aperture/lsat/identifier.go:79-97 | the bytes written, also when an unknown version is refused half way |
| `Identifiers.DecodeIdentifier` | aperture/lsat/identifier.go:100-128 | the reads off a byte reader yield the decoded value or an error |
| `TokenCodec.TokenRoundTrip` | aperture/lsat/token.go:106-190 | a serialized token reads back as itself iff its macaroon length fits in 32 bits and its time in the int64 nanosecond range |
| `TokenCodec.TokenLayout` | aperture/lsat/token.go:148-190 | the length prefix and every field of a token file by byte position |
| `TokenCodec.PendingIff` | aperture/lsat/token.go:101-103 | a token is pending iff its preimage is 32 zero bytes |
| `TokenCodec.TornFileRejected` | aperture/lsat/token.go:148-190 | a truncated token file never decodes |
| `TokenCodec.DeserializeToken` | aperture/lsat/token.go:148-190 | the fields read, or nothing if any read fails or the macaroon does not parse |
| `TokenStore.PaidTokenPermanence` | aperture/lsat/store.go:89-204 | over every sequence of store operations with failed and torn writes, failed removals and deaths: the paid file never holds a pending token, never changes once written, is what `currentToken` returns, and matches the pending token it replaced |
| `TokenStore.StepKeepsPaid` | aperture/lsat/store.go:139-204 | what one operation keeps of the two files and may do to the paid one |
| `TokenStore.FileStore.StoreToken` | aperture/lsat/store.go:139-194 | the two files after each outcome; succeeds iff the store is readable, the write works, and the store is empty or holds a pending token that a paid one of the same hash replaces; then the new token is current |
| `TokenStore.FileStore.RemovePendingToken` | aperture/lsat/store.go:198-204 | removes the pending file; succeeds iff it existed and the removal worked |
| `ClientPayments.AtMostOnePayment` | aperture/lsat/client_interceptor.go:261-410 | in every state of every run, with timeouts, store failures and process death between steps, at most one payment is in flight or succeeded, and spending stays within maxCost + maxFee when invoices carry an amount |
| `ClientPayments.PaidOnce` | aperture/lsat/client_interceptor.go:261-315 | after a payment has succeeded no other is ever made on this store and nothing more is spent |
| `ClientPayments.ResumeCompletes` | aperture/lsat/client_interceptor.go:264-293 | in every state of every run a succeeded payment without a paid file is remembered by the pending file, and unless its preimage is all zeros four steps on a working disk leave its token in the paid file |
| `ClientPayments.WedgedIff` | aperture/lsat/client_interceptor.go:261-474 | in every state of every run, given one challenge the client can meet, the store can still come to hold a paid token iff it is readable and its pending token, if any, has a payment lnd knows (or one about to be sent) |
| `ClientPayments.DeathBeforeSending` | aperture/lsat/client_interceptor.go:364-389 | dying between storing the pending token and sending leaves a store that can not, for any token and any allowed invoice |
| `ClientPayments.StepKeepsInv` | aperture/lsat/client_interceptor.go:125-410 | every step keeps a live payment remembered on disk and the accounting right |
| `ClientPayments.TrackPayment` | aperture/lsat/client_interceptor.go:433-473 | any number of in-flight updates are waited through; the first other one makes the answer paid with its preimage iff it says succeeded, failed for good iff it says failed, and inconclusive otherwise, as does its absence |
| `InvoiceCache.CacheRefinement` | aperture/challenger/lnproxy.go:119-262 | listing then updating leaves for every hash its last event, present iff relevant when processed |
| `InvoiceCache.LastEventAt` | aperture/challenger/lnproxy.go:244-256 | by position: the last event of a hash leaves its state if relevant when processed, and nothing if not |
| `InvoiceCache.LastSettleAt` | aperture/challenger/lnproxy.go:249-255 | by position: the last recorded settlement of a hash gives its settle date |
| `InvoiceCache.ActedAre` | aperture/challenger/lnproxy.go:178-242 | the updates acted on are those before the first that is none or has a malformed hash |
| `InvoiceCache.RelevanceOverTime` | aperture/challenger/lnproxy.go:512-525 | canceled invoices are irrelevant, settled ones never, open and accepted ones from the moment creation plus expiry has passed |
| `InvoiceCache.Serve` | aperture/challenger/lnproxy.go:95-262 | a whole life of a challenger refines that specification, and settle dates come from the stream alone |
| `InvoiceCache.Challenger.Start` | aperture/challenger/lnproxy.go:95-145 | the cache after listing, and subscription indices that are the maxima over listed invoices with a hash; fails iff some hash is malformed |
| `InvoiceCache.Challenger.ProcessUpdate` | aperture/challenger/lnproxy.go:232-256 | the cache and the settle dates after one update |
| `InvoiceCache.Challenger.ReadInvoiceStream` | aperture/challenger/lnproxy.go:175-263 | the cache and the settle dates after a stream that ends in any way |
| `InvoiceWait.NoLostWakeup` | aperture/challenger/lnproxy.go:412-465 | in every interleaving a sleeping waiter nobody is about to wake finds its state absent and its flag unset, and its timeout thread is still to come |
| `InvoiceWait.AnswersFromLastRead` | aperture/challenger/lnproxy.go:451-488 | `VerifyInvoiceStatus` succeeds iff a version of the cache current during the call, the one of its last locked read, had the wanted state |
| `InvoiceWait.NeverStuck` | aperture/challenger/lnproxy.go:412-475 | while a call has not returned, one of its own two threads or the holder of the mutex can take a step that decreases the distance to its return |
| `InvoiceWait.EveryCallCanReturn` | aperture/challenger/lnproxy.go:412-488 | from every state of every run such steps alone lead to the return of the call, whatever an update under way writes |
| `InvoiceWait.HolderMoves` | aperture/challenger/lnproxy.go:442-467 | whoever holds the mutex can take its next step, comes closer to releasing it and sets no call back |
| `InvoiceWait.StepKeepsInv` | aperture/challenger/lnproxy.go:412-475 | mutual exclusion and the wake-up bookkeeping survive every step |
| `HashmailFraming.Session` | aperture/hashmail_server.go:131-276 | what arrives of a sequence of messages through framing, both pipes, reassembly and decoding; all of it iff no frame length is a multiple of 4096 |
| `HashmailFraming.EndToEndDelivery` | aperture/hashmail_server.go:240-276 | the same as a law of the functions involved |
| `HashmailFraming.DeliveredIff` | aperture/hashmail_server.go:263-270 | delivery is faithful iff no frame ends on a 4096-byte boundary |
| `HashmailFraming.BoundaryLosesTheNextMessage` | aperture/hashmail_server.go:263-270 | a 4093-byte message swallows the next one and does not arrive until then |
| `HashmailFraming.CopyInvisible` | aperture/hashmail_server.go:240-245 | the copying goroutine makes no difference to the reader |
| `HashmailFraming.CopyPipe` | aperture/hashmail_server.go:240-245 | the writes the second pipe receives |
| `HashmailFraming.Reassemble` | aperture/hashmail_server.go:252-276 | the buffers the reading loop delivers are the pieces regrouped while they are exactly 4096 bytes long |
| `HashmailFraming.Pipe.Read` | aperture/hashmail_server.go:204-205 | a read serves the oldest write and never crosses into the next |
| `HashmailFraming.WriteAll` | aperture/hashmail_server.go:131-158 | every message is written as one frame |
| `HashmailFraming.ReadAll` | aperture/hashmail_server.go:78-103 | every buffer is decoded as one message |
| `HashmailFraming.ReadNextMsgTakesFirst` | aperture/hashmail_server.go:91-102 | the first frame of a buffer is the message; what follows is dropped |
| `HashmailFraming.BigSizeRoundTrip` | aperture/hashmail_server.go:142-146 | a BigSize prefix decodes to its number and leaves the rest |
| `HashmailFraming.BigSizeCanonical` | aperture/hashmail_server.go:91-96 | only canonical prefixes decode |
| `HashmailFraming.BigSizeShape` | aperture/hashmail_server.go:142-146 | the widths and marker bytes of the length prefix |
| `HashmailFraming.ReadNextMsgLimits` | aperture/hashmail_server.go:91-102 | a prefix that promises too much yields what there is, and one beyond int64 nothing |
| `HashmailStreams.StreamExclusivity` | aperture/hashmail_server.go:293-333 | in every reachable server state each stream has exactly one read and one write token, and a stream is live iff its id names it |
| `HashmailStreams.StaleTimerIff` | aperture/hashmail_server.go:293-333 | in every run without the three races, on a live stream with expiry enabled and no operation half done, the timer is armed or has fired with its callback still to run iff both tokens are in their channels |
| `HashmailStreams.NeverEndangered` | aperture/hashmail_server.go:770-843 | in every run without the three races no live stream is held while its timer runs or has fired |
| `HashmailStreams.UngentleEndangers` | aperture/hashmail_server.go:293-333 | the condition is exact: after any run without them, each of the three races leads within two more steps to such a stream |
| `HashmailStreams.CallbackFindsItUnused` | aperture/hashmail_server.go:392-412 | without the races a stale callback that finds its own stream finds it unused |
| `HashmailStreams.FiredTakesAway` | aperture/hashmail_server.go:392-412 | with a fired timer, an endangered stream can be taken away from its holder at once |
| `HashmailStreams.TornUnderItsReader` | aperture/hashmail_server.go:779-820 | a five-step run in which a reader loses its stream to a timer that fired before it took the token |
| `HashmailStreams.DisturbedReturnArmsTimer` | aperture/hashmail_server.go:293-296 | a run in which a late return arms the timer of a stream in use |
| `HashmailStreams.StaleHitsAnotherIff` | aperture/hashmail_server.go:392-412 | a stale callback takes away another stream iff its own is gone and the id names a successor |
| `HashmailStreams.CallbacksKeepToTheirOwn` | aperture/hashmail_server.go:392-412 | never in a run in which streams are removed without fired callbacks left behind and removed streams are not freed |
| `HashmailStreams.UntidyLeavesUnclean` | aperture/hashmail_server.go:392-412 | a step that breaks this condition leaves a removed stream whose callback can still run |
| `HashmailStreams.UncleanCanHit` | aperture/hashmail_server.go:392-412 | from any state with such a stream at most three steps lead to a hit |
| `HashmailStreams.StaleCallbackHitsSuccessor` | aperture/hashmail_server.go:293-412 | a run, without any of the three races, in which a successor in use is taken away |
| `HashmailStreams.StreamStatus.constructor` | aperture/hashmail_server.go:770-789 | a new status is in step, disabled iff the timeout is negative |
| `HashmailStreams.StreamStatus.StreamTaken` | aperture/hashmail_server.go:806-820 | new state, and a status in step stays in step |
| `HashmailStreams.StreamStatus.StreamReturned` | aperture/hashmail_server.go:826-843 | new state, and a status in step stays in step |

## Left out

- RelayCircuits.FinishedReleases: takes WatchInvoice at its word when it reports an invoice canceled.
- RelayTimelocks.SuccessLeavesTime: the margin within which lnd cancels and the resolution of payments by their expiry are assumptions on the run; the other results hold without them.
- InvoiceWait.EveryCallCanReturn: says that the steps exist, not that the scheduler takes them; fairness and real time are not modelled.
- HashmailFraming.Session: the four goroutines run one after the other, so back-pressure, rate limiting and the buffer dropped at teardown are not modelled.
- EndToEnd.AcceptedMeansPaid: uses one clock for aperture and lnd, and every invoice of the node is one of the relay's.
- EndToEnd.SettledWhileDownIsRefused: assumes that lnd lists every invoice and streams only settlements with an index beyond the one subscribed from.
- Mint.Minter.MintL402: one call at a time; the macaroon library's own failures, which the code treats like a failing limiter, are not separate cases.
- Mint.LimiterTimeoutBinds: asks for a target name without "=", since the first "=" ends the condition of a caveat.
- Mint.TokenSoundness: third-party caveats are not part of the signature algebra; the code passes no discharges, so it would refuse such tokens although a comment speaks of skipping them.
- Caveats.SatisfiersDemote: the satisfier closures are pure functions here; their loops are the methods CheckServicesShrink, CheckServicesAllow and CheckCapabilitiesShrink.
- Text and macaroon sizes are unbounded where the code relies on Go's own limits; the macaroon wire format is an abstract pair of functions.
- SHA-256, HMAC and randomness: a function parameter, a free algebra and inputs.
- BOLT #11 decoding, LNURL, HTTP calls, gRPC and lnd itself: records and environment steps with the guarantees stated in the step relations.
- `staticServiceLimiter`: the limiter is an arbitrary input to minting.
- `TransactionExecutor.ExecTx`: database operations are atomic steps that may fail; how often a failing one is retried is not modelled.
- `FreshChallengeHeader`, proxy dispatch, freebies, configuration, TLS, Tor, metrics, the contents service and the command-line tools: plumbing or single-branch decisions.
- `AllTokens` of the token store and `validateAuthReq` of the mailbox server: reads and a field check.
- Shutdown of the relay on a signal: covered by the crash step, which may happen at any moment.
