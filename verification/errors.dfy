/**
 * The pre-built error responses of the HTTP controllers. Each error kind has a
 * fixed HTTP status, a machine-readable `ERR_` code, a short message and a details text.
 */
module Errors {

  /** The JSON body a failed request answers with. */
  datatype ErrorResponse = ErrorResponse(
    statusCode: int,
    errorCode: string,
    message: string,
    details: string)

  /** The twelve named error values of the controllers. */
  datatype ErrorKind =
    | IncompleteRequest
    | CreateCommunity
    | FetchingBalance
    | InsufficientBalance
    | Forbidden
    | CreateProposal
    | UpdateCommunity
    | StrategyNotFound
    | AlreadyVoted
    | InactiveProposal
    | GetCommunity
    | CreateVote

  const StatusOK := 200
  const StatusBadRequest := 400
  const StatusUnauthorized := 401
  const StatusForbidden := 403
  const StatusNotFound := 404
  const StatusInternalServerError := 500

  /** The response a kind of error is reported with. */
  function ToResponse(k: ErrorKind): (e: ErrorResponse)
    ensures e.statusCode in {StatusBadRequest, StatusUnauthorized, StatusForbidden,
                             StatusNotFound, StatusInternalServerError}
    ensures |e.errorCode| == 8 && e.errorCode[..4] == "ERR_"
    ensures ParseCode(e.errorCode) == CodeNumber(k)
    // the two errors the update and results endpoints answer with
    ensures k == IncompleteRequest ==> e.statusCode == StatusBadRequest && e.errorCode == "ERR_1001"
    ensures k == Forbidden ==> e.statusCode == StatusForbidden && e.errorCode == "ERR_1005"
  {
    CodeRoundTrip(CodeNumber(k));
    ErrorResponse(Status(k), CodeText(CodeNumber(k)), Message(k), Details(k))
  }

  /** The HTTP status a kind of error is answered with. */
  function Status(k: ErrorKind): int
  {
    match k
    case IncompleteRequest | CreateCommunity | FetchingBalance
       | AlreadyVoted | InactiveProposal => StatusBadRequest
    case InsufficientBalance => StatusUnauthorized
    case Forbidden | CreateProposal | UpdateCommunity => StatusForbidden
    case StrategyNotFound => StatusNotFound
    case GetCommunity | CreateVote => StatusInternalServerError
  }

  /** The number behind a kind's `ERR_` code. */
  function CodeNumber(k: ErrorKind): int
  {
    match k
    case IncompleteRequest => 1001
    case CreateCommunity => 1002
    case FetchingBalance => 1003
    case InsufficientBalance => 1004
    case Forbidden => 1005
    case CreateProposal => 1006
    case UpdateCommunity => 1007
    case StrategyNotFound => 1008
    case AlreadyVoted => 1009
    case InactiveProposal => 1010
    case GetCommunity => 1011
    case CreateVote => 1012
  }

  function Message(k: ErrorKind): string
  {
    match k
    case FetchingBalance => "Error Fetching Balance"
    case InsufficientBalance => "Insufficient Balance"
    case Forbidden => "Forbidden"
    case StrategyNotFound => "Strategy Not Found"
    case _ => "Error"
  }

  function Details(k: ErrorKind): string
  {
    match k
    case IncompleteRequest => "There was an error trying to complete your request"
    case CreateCommunity => "There was an error trying to create your community"
    case FetchingBalance =>
      "While confirming your balance, we've encountered an error\n\t\t\t\t\t\t\tconnecting to the Flow Blockchain."
    case InsufficientBalance =>
      "In order to vote on this proposal you must have a minimum \n\t\t\t\t\t\t\tbalance of %f %s tokens in your wallet."
    case Forbidden => "You are not authorized to perform this action."
    case CreateProposal => "There was an error trying to create your proposal"
    case UpdateCommunity => "There was an error trying to update your community"
    case StrategyNotFound => "The strategy name you are trying to use no longer exists."
    case AlreadyVoted => "Address %s has already voted for proposal %d."
    case InactiveProposal => "Cannot vote on an inactive proposal."
    case GetCommunity => "There was an error retrieving the community."
    case CreateVote => "There was an error creating the vote."
  }

  /** The decimal character of a digit. */
  function DigitChar(d: int): char
    requires 0 <= d < 10
  {
    ('0' as int + d) as char
  }

  /** The digit a decimal character stands for. */
  function DigitValue(c: char): int
  {
    c as int - '0' as int
  }

  /** A four-digit code written as `ERR_dddd`. */
  function CodeText(n: int): (t: string)
    requires 1000 <= n < 10000
    ensures |t| == 8 && t[..4] == "ERR_"
  {
    "ERR_" + [DigitChar(n / 10 / 10 / 10), DigitChar(n / 10 / 10 % 10),
              DigitChar(n / 10 % 10), DigitChar(n % 10)]
  }

  /** The number an `ERR_dddd` code stands for; -1 for text of any other length. */
  function ParseCode(t: string): int
  {
    if |t| != 8 then -1
    else ((DigitValue(t[4]) * 10 + DigitValue(t[5])) * 10 + DigitValue(t[6])) * 10 + DigitValue(t[7])
  }

  /** Reading a written code back gives the number it was written from. */
  lemma CodeRoundTrip(n: int)
    requires 1000 <= n < 10000
    ensures ParseCode(CodeText(n)) == n
  {
  }

  /** Distinct kinds of error have distinct code numbers. */
  lemma CodeNumberInjective(k1: ErrorKind, k2: ErrorKind)
    requires CodeNumber(k1) == CodeNumber(k2)
    ensures k1 == k2
  {
  }

  /** Distinct kinds of error are reported with distinct codes, so a client can tell them apart. */
  lemma ErrorCodesDistinct(k1: ErrorKind, k2: ErrorKind)
    ensures ToResponse(k1).errorCode == ToResponse(k2).errorCode <==> k1 == k2
  {
    var e1, e2 := ToResponse(k1), ToResponse(k2);
    if e1.errorCode == e2.errorCode {
      assert ParseCode(e1.errorCode) == ParseCode(e2.errorCode);
      CodeNumberInjective(k1, k2);
    }
  }
}
