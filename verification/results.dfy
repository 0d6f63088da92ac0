/**
 * The results endpoint of a proposal: it looks the proposal up, tallies its votes
 * and, for a closed proposal whose achievements are not yet done, asks for the
 * winning-vote achievements to be awarded.
 */
module ProposalResults {
  import opened Wrappers
  import opened Errors
  import opened Proposals

  /** The computed status of a proposal whose voting window is over. */
  const Closed := "closed"

  /** A reply written to the HTTP response: a status header followed by a JSON body. */
  datatype Response<T> = ErrorReply(error: ErrorResponse) | JsonReply(statusCode: int, payload: T)

  /** The status header a reply asks for. */
  function StatusOf<T>(reply: Response<T>): int
  {
    match reply
    case ErrorReply(e) => e.statusCode
    case JsonReply(code, _) => code
  }

  /**
   * The status the client receives when `written` are written in order: only the
   * first status header takes effect, the later ones are ignored; the bodies
   * of all replies follow each other.
   */
  function ClientStatus<T>(written: seq<Response<T>>): int
    requires |written| > 0
  {
    StatusOf(written[0])
  }

  /**
   * The collaborators of the endpoint, whose implementations are not part of this model:
   * `fetchProposal(proposalId)` looks a proposal up and returns it together with whether
   * the lookup reported an error; `getVotes(proposalId, strategy)` loads every vote of a
   * proposal, `tally` counts them with the proposal's strategy, and `award` stores the
   * winning-vote achievements, answering whether that worked. `V` is a vote and `T` a tally.
   */
  datatype ResultsEnv<!V, !T> = ResultsEnv(
    fetchProposal: string -> (Proposal, bool),
    getVotes: (int, string) -> Option<seq<V>>,
    tally: (Proposal, seq<V>) -> Option<T>,
    award: (seq<V>, T) -> bool)

  /**
   * What one request did: the proposal whose votes it loaded, whether it asked for the
   * award, and the replies it wrote, in order.
   */
  datatype ResultsOutcome<T> = ResultsOutcome(
    votesOf: Proposal,
    awardAttempted: bool,
    written: seq<Response<T>>)

  /** Whether the proposal's achievements are due: it is closed and has not had them yet. */
  predicate AchievementDue(p: Proposal)
  {
    p.computedStatus == Closed && !p.achievementsDone
  }

  /** The proposal the lookup hands back, whether or not it reported an error. */
  function Fetched<V, T>(proposalId: string, env: ResultsEnv<V, T>): Proposal
  {
    env.fetchProposal(proposalId).0
  }

  /** Whether the votes load and tally without error. */
  predicate Tallied<V, T>(p: Proposal, env: ResultsEnv<V, T>)
  {
    && env.getVotes(p.id, p.strategy).Some?
    && env.tally(p, env.getVotes(p.id, p.strategy).value).Some?
  }

  /** The tally of a proposal whose votes load and tally without error. */
  function TallyOf<V, T>(p: Proposal, env: ResultsEnv<V, T>): T
    requires Tallied(p, env)
  {
    env.tally(p, env.getVotes(p.id, p.strategy).value).value
  }

  /** Whether the award, once asked for, fails. */
  predicate AwardFails<V, T>(p: Proposal, env: ResultsEnv<V, T>)
    requires Tallied(p, env)
  {
    !env.award(env.getVotes(p.id, p.strategy).value, TallyOf(p, env))
  }

  /** Handles a results request for the proposal named by `proposalId`. */
  function GetResultsForProposal<V, T>(proposalId: string, env: ResultsEnv<V, T>)
    : (o: ResultsOutcome<T>)
    // the votes are loaded for the proposal the lookup returned, even when it reported an error
    ensures o.votesOf == Fetched(proposalId, env)
    // the award is asked for exactly when the tally is there and the achievements are due
    ensures o.awardAttempted <==> Tallied(o.votesOf, env) && AchievementDue(o.votesOf)
    // a failed load or tally is answered with a single error and nothing else
    ensures !Tallied(o.votesOf, env) ==> o.written == [ErrorReply(ToResponse(IncompleteRequest))]
    // once tallied, the tally is the last reply written, even when the award fails
    ensures Tallied(o.votesOf, env) ==>
              |o.written| > 0 && o.written[|o.written| - 1] == JsonReply(StatusOK, TallyOf(o.votesOf, env))
    // a failed award writes an error reply before the tally
    ensures Tallied(o.votesOf, env) ==> (|o.written| == 2 <==> o.awardAttempted && AwardFails(o.votesOf, env))
    ensures |o.written| == 2 ==> o.written[0] == ErrorReply(ToResponse(IncompleteRequest))
    ensures 1 <= |o.written| <= 2
    // the client sees success exactly when the tally succeeded and no award failed before it
    ensures ClientStatus(o.written) == StatusOK
        <==> Tallied(o.votesOf, env) && !(o.awardAttempted && AwardFails(o.votesOf, env))
    ensures ClientStatus(o.written) != StatusOK ==> ClientStatus(o.written) == StatusBadRequest
  {
    var p := env.fetchProposal(proposalId).0;
    var failed := ErrorReply(ToResponse(IncompleteRequest));
    match env.getVotes(p.id, p.strategy)
    case None => ResultsOutcome(p, false, [failed])
    case Some(votes) =>
      match env.tally(p, votes)
      case None => ResultsOutcome(p, false, [failed])
      case Some(results) =>
        var ok := JsonReply(StatusOK, results);
        if AchievementDue(p) then
          if env.award(votes, results) then ResultsOutcome(p, true, [ok])
          else ResultsOutcome(p, true, [failed, ok])
        else ResultsOutcome(p, false, [ok])
  }

  /**
   * The error flag of the lookup makes no difference: a lookup that hands back the same
   * proposal with the opposite flag gives the same outcome.
   */
  lemma FetchErrorIgnored<V, T>(proposalId: string, env: ResultsEnv<V, T>, failed: bool)
    ensures var flipped := env.(fetchProposal := (id: string) => (env.fetchProposal(id).0, failed));
            GetResultsForProposal(proposalId, flipped) == GetResultsForProposal(proposalId, env)
  {
  }

  /**
   * A failed award fails the read: the client receives status 400, with the error body
   * followed by the tally body.
   */
  lemma AwardFailureFailsRead<V, T>(proposalId: string, env: ResultsEnv<V, T>)
    requires Tallied(Fetched(proposalId, env), env) && AchievementDue(Fetched(proposalId, env))
    requires AwardFails(Fetched(proposalId, env), env)
    ensures var o := GetResultsForProposal(proposalId, env);
            && ClientStatus(o.written) == 400
            && o.written == [ErrorReply(ToResponse(IncompleteRequest)),
                             JsonReply(StatusOK, TallyOf(Fetched(proposalId, env), env))]
  {
  }

  /** An open proposal, or one already awarded, never triggers the award, whatever the award would do. */
  lemma NoAwardUnlessDue<V, T>(proposalId: string, env: ResultsEnv<V, T>, otherAward: (seq<V>, T) -> bool)
    requires Fetched(proposalId, env).computedStatus != Closed || Fetched(proposalId, env).achievementsDone
    ensures !GetResultsForProposal(proposalId, env).awardAttempted
    ensures GetResultsForProposal(proposalId, env) == GetResultsForProposal(proposalId, env.(award := otherAward))
  {
  }
}
