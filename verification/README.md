# CAST controller decision rules in Dafny

CAST is a governance platform: communities configure voting strategies, authors
publish proposals, and addresses vote with weights taken from the Flow blockchain.
Its HTTP controllers (`backend/main/server/controllers.go`) are mostly glue around
the database, the Flow client and IPFS, but they hold a few decision rules of their
own. This project models those rules as pure Dafny functions and proves what they
promise:

- **Pagination** (`pagination.dfy`): how the `start`, `count` and `order` query
  parameters of the list endpoints are normalised into a page description.
- **Strategy thresholds** (`strategies.dfy`): a community's strategy list is
  refused when some strategy sets a contract threshold below 1.
- **Proposal update** (`proposals.dfy`): the only status change a request may ask
  for is cancellation; it needs the `author` role in the proposal's community,
  proved through a voucher when one is sent and through composite signatures
  otherwise; only then is the status overwritten, pinned to IPFS and saved.
- **Results and achievements** (`results.dfy`): the results endpoint tallies the
  votes and asks for the winning-vote achievements only for a closed proposal
  whose achievements are not yet done.
- **Error responses** (`errors.dfy`): the twelve pre-built error values, with their
  HTTP statuses and `ERR_10xx` codes.

Collaborators whose code is not part of this model — the role checks through a
voucher or through signatures, the IPFS pin, the database save, the proposal
lookup, the vote loader, the strategy tally and the achievement writer — are
parameters of the functions
(total functions bundled in `Collaborators` and `ResultsEnv`), so every property
holds whatever those collaborators answer. `wrappers.dfy` defines `Option`,
`Result` and `Outcome`.

Four behaviours of the code are modelled as written:

- `updateProposal` never reads the proposal's current status before overwriting
  it (`backend/main/server/controllers.go:360-392`). An author can therefore cancel
  a proposal that is already cancelled or closed
  (`Proposals.AnyStatusCanBeCancelled`).
- The results endpoint discards the error of the proposal lookup
  (`backend/main/server/controllers.go:138`) and loads the votes of whatever
  proposal the lookup returned (`ProposalResults.FetchErrorIgnored`).
- No `return` follows the error reply of a failed achievement award
  (`backend/main/server/controllers.go:155-158`), so the tally reply is written
  after it. Both replies go through `respondWithJSON`
  (`backend/main/server/controllers.go:981-997`), and once a status header is
  written, Go's HTTP server ignores later ones. The client therefore
  receives status 400 with the error body followed by the tally body, and the read
  fails (`ProposalResults.AwardFailureFailsRead`).
- The award is gated on a plain read of `Achievements_done`
  (`backend/main/server/controllers.go:154`). Nothing in the endpoint sets the
  flag. Whether the award writer sets it is not part of this model.

## Model

| member | source | states |
|---|---|---|
| Errors.ToResponse | backend/main/server/controllers.go:23-111 | every error kind is answered with one of the statuses 400, 401, 403, 404 or 500 and an eight-character `ERR_` code that reads back as the kind's number 1001-1012; an incomplete request is 400 / ERR_1001 and a forbidden one 403 / ERR_1005 |
| Errors.CodeRoundTrip | backend/main/server/controllers.go:23-108 | a four-digit number written as an `ERR_dddd` code parses back to the same number |
| Errors.ErrorCodesDistinct | backend/main/server/controllers.go:23-108 | two error kinds share a machine-readable code exactly when they are the same kind |
| Pagination.GetPageParams | backend/main/server/controllers.go:1012-1033 | the requested count is kept when it lies in [1, default] and replaced by the default otherwise, including when it is missing or unparsable; the start is never negative and a non-negative start is kept; the order becomes "desc" exactly when it was empty and is otherwise passed through unchanged |
| Pagination.NormalizedIsFixedPoint | backend/main/server/controllers.go:1012-1033 | re-requesting a page gives it back unchanged exactly when it is normalised (start not negative, count accepted or the default, order not empty) |
| Pagination.GetPageParamsIdempotent | backend/main/server/controllers.go:1012-1033 | sending the normalised start, count and order back in with the same default gives the same page |
| Pagination.EndpointPageSizesBounded | backend/main/server/controllers.go:1021-1023 | with the defaults the endpoints pass (25 and 100), a page always holds between 1 and that many items |
| Strategies.ValidateConractThreshold | backend/main/server/controllers.go:579-588 | a strategy list is refused, with the message "Contract Threshold Cannot Be < 1.", exactly when some strategy sets a threshold below 1; unset thresholds and the empty list pass |
| Strategies.ValidateConcat | backend/main/server/controllers.go:579-588 | a concatenated list passes exactly when both parts pass |
| Strategies.ValidateOrderIndependent | backend/main/server/controllers.go:579-588 | reordering a strategy list does not change the verdict |
| Proposals.UpdateProposal | backend/main/server/controllers.go:360-406 | a status other than "cancelled" is an incomplete request; an unauthorised cancellation is forbidden; once both checks pass, the request succeeds exactly when the IPFS pin and then the save succeed, and a failed pin or save is an incomplete request; success changes only the status (to "cancelled") and the content identifier, which is the one the pin returned |
| Proposals.StatusCheckedBeforeAuthorization | backend/main/server/controllers.go:363-367 | a refused status gives the same answer whatever the authorisation checks would say |
| Proposals.VoucherPathIgnoresSignatureCheck | backend/main/server/controllers.go:369-378 | when a voucher is sent, the signature check is never consulted |
| Proposals.SignaturePathIgnoresVoucherCheck | backend/main/server/controllers.go:379-390 | without a voucher, the voucher check is never consulted |
| Proposals.ForbiddenResponse | backend/main/server/controllers.go:369-390 | a cancellation by someone who is not an author of the community is answered with status 403 and code "ERR_1005" |
| Proposals.AnyStatusCanBeCancelled | backend/main/server/controllers.go:360-392 | an authorised cancellation succeeds whatever the proposal's current status, when the pin and the save succeed |
| ProposalResults.GetResultsForProposal | backend/main/server/controllers.go:136-162 | the votes are loaded for the proposal the lookup returned, whether or not the lookup reported an error; the award is asked for exactly when the votes load, the tally succeeds, the computed status is "closed" and achievements are not done; a failed load or tally yields a single error reply; otherwise the tally is the last reply, preceded by an error reply exactly when the award failed; the client receives status 200 exactly when the tally succeeded and no award failed, and 400 otherwise |
| ProposalResults.FetchErrorIgnored | backend/main/server/controllers.go:136-140 | a lookup that returns the same proposal with its error flag flipped gives the same outcome, so the lookup's error never stops the endpoint |
| ProposalResults.AwardFailureFailsRead | backend/main/server/controllers.go:154-161 | when the award fails, the client receives status 400, with the error body followed by the tally body |
| ProposalResults.NoAwardUnlessDue | backend/main/server/controllers.go:154-159 | an open or already-awarded proposal never triggers the award, and the endpoint's answer does not depend on the award writer |

## Left out

- HTTP transport: routing, `mux.Vars`, `validatePayload`, JSON marshalling and
  `respondWithJSON`/`respondWithError` are not modelled. A reply is modelled as the
  error value or the status and payload it would carry.
- Pagination.GetPageParams: the form values come in already parsed, with `None`
  for a missing or unparsable value, which parsing turns into 0. The clamping of
  out-of-range numbers by `strconv.Atoi` is folded into the integer given.
- Strategies.ValidateConractThreshold: thresholds are exact reals, so the NaN and
  rounding behaviour of Go's `float64` is not modelled. Of a strategy only the
  threshold is inspected; its other fields are not part of this model.
- Proposal lookup (`helpers.fetchProposal`) is an opaque parameter of the results
  endpoint, returning a proposal and an error flag. The update takes the proposal
  already fetched, so the lookup failure path at the start of `updateProposal` is
  not modelled.
- Proposals.UpdateProposal: the role checks, the IPFS pin and the database save are
  opaque parameters. Their own behaviour is not part of this model.
- ProposalResults.GetResultsForProposal: the `Strategy` and `Computed_status`
  fields are assumed set. The nil-pointer dereference the code would hit otherwise
  is not modelled. Looking the proposal up, loading votes, tallying and awarding
  achievements are opaque parameters.
- `createCommunity` and `updateCommunity` are not modelled. They call
  `validateContractThreshold` and `validateProposalThreshold`, which are not part of
  this model. As a consequence, the missing `return` after a proposal-threshold
  error in both is not modelled.
- The in-place changes to the shared error values (`StatusCode` overwritten by the
  list and community-user handlers) are concurrent shared state and are not
  modelled. Each error kind keeps the status it is declared with.
- The remaining handlers (votes, communities, lists, users, strategies, upload,
  account lookups on the Flow chain) only forward to collaborators that are not
  part of this model.
- The vote ledger, identity verification and weighted tally of the wider system
  live outside the controllers and are not part of this model.
