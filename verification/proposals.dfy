/**
 * The status update of a proposal. The only update a request may ask for is
 * cancellation, and only an author of the proposal's community may ask for it,
 * proved either through a voucher or through the signer's composite signatures.
 */
module Proposals {
  import opened Wrappers
  import opened Errors

  /** The proposal fields the controllers read or write. */
  datatype Proposal = Proposal(
    id: int,
    communityId: int,
    strategy: string,
    status: string,
    computedStatus: string,
    achievementsDone: bool,
    cid: string)

  /**
   * The body of an update request. `V` is the voucher and `C` the list of
   * composite signatures; both are only handed on to the authorisation checks.
   */
  datatype UpdatePayload<V, C> = UpdatePayload(
    status: string,
    signingAddr: string,
    timestamp: string,
    compositeSignatures: C,
    voucher: Option<V>)

  /** The only status an update may set. */
  const Cancelled := "cancelled"

  /** The role an address needs in the proposal's community to change it. */
  const AuthorRole := "author"

  /**
   * The collaborators of an update, whose implementations are not part of this model:
   * `viaVoucher(addr, voucher, community, role)` and
   * `viaSignatures(addr, timestamp, signatures, community, role)` say whether the
   * signer holds the role; `pin` stores the proposal as JSON and returns its content
   * identifier, or `None` on failure; `store` saves it, answering whether that worked.
   */
  datatype Collaborators<-V, -C> = Collaborators(
    viaVoucher: (string, V, int, string) -> bool,
    viaSignatures: (string, string, C, int, string) -> bool,
    pin: Proposal -> Option<string>,
    store: Proposal -> bool)

  /** Whether the signer of the request is an author of the proposal's community. */
  predicate Authorized<V, C>(p: Proposal, payload: UpdatePayload<V, C>, env: Collaborators<V, C>)
  {
    match payload.voucher
    case Some(v) => env.viaVoucher(payload.signingAddr, v, p.communityId, AuthorRole)
    case None => env.viaSignatures(payload.signingAddr, payload.timestamp,
                                   payload.compositeSignatures, p.communityId, AuthorRole)
  }

  /**
   * Handles an update of an already fetched proposal: the new proposal on success,
   * otherwise the error the request is answered with.
   */
  function UpdateProposal<V, C>(p: Proposal, payload: UpdatePayload<V, C>, env: Collaborators<V, C>)
    : (r: Result<Proposal, ErrorKind>)
    // a status other than "cancelled" is refused as an incomplete request
    ensures payload.status != Cancelled ==> r == Failure(IncompleteRequest)
    // a cancellation the signer is not authorised for is forbidden
    ensures payload.status == Cancelled && !Authorized(p, payload, env) ==> r == Failure(Forbidden)
    // success needs a cancellation by an author, and sets the status and nothing but the pin
    ensures r.Success? ==> payload.status == Cancelled && Authorized(p, payload, env)
    ensures r.Success? ==> r.value.status == Cancelled
    ensures r.Success? ==> && env.pin(p.(status := Cancelled)).Some?
                           && r.value == p.(status := Cancelled, cid := env.pin(p.(status := Cancelled)).value)
    // once both checks pass, the request succeeds exactly when the pin and then the save succeed
    ensures payload.status == Cancelled && Authorized(p, payload, env) ==>
              (r.Success? <==> && env.pin(p.(status := Cancelled)).Some?
                               && env.store(p.(status := Cancelled, cid := env.pin(p.(status := Cancelled)).value)))
    // a failed pin or save is reported as an incomplete request
    ensures r.Failure? ==> r.error in {IncompleteRequest, Forbidden}
    ensures r.Failure? && r.error == Forbidden ==> payload.status == Cancelled && !Authorized(p, payload, env)
  {
    if payload.status != Cancelled then Failure(IncompleteRequest)
    else if !Authorized(p, payload, env) then Failure(Forbidden)
    else
      var updated := p.(status := payload.status);
      match env.pin(updated)
      case None => Failure(IncompleteRequest)
      case Some(cid) =>
        var pinned := updated.(cid := cid);
        if env.store(pinned) then Success(pinned) else Failure(IncompleteRequest)
  }

  /** A refused status is refused whatever the authorisation checks would have said. */
  lemma StatusCheckedBeforeAuthorization<V, C>(
    p: Proposal, payload: UpdatePayload<V, C>, env1: Collaborators<V, C>, env2: Collaborators<V, C>)
    requires payload.status != Cancelled
    ensures UpdateProposal(p, payload, env1) == UpdateProposal(p, payload, env2)
  {
  }

  /** With a voucher present, the signature check is never consulted. */
  lemma VoucherPathIgnoresSignatureCheck<V, C>(
    p: Proposal, payload: UpdatePayload<V, C>, env: Collaborators<V, C>,
    otherCheck: (string, string, C, int, string) -> bool)
    requires payload.voucher.Some?
    ensures UpdateProposal(p, payload, env) == UpdateProposal(p, payload, env.(viaSignatures := otherCheck))
  {
  }

  /** Without a voucher, the voucher check is never consulted. */
  lemma SignaturePathIgnoresVoucherCheck<V, C>(
    p: Proposal, payload: UpdatePayload<V, C>, env: Collaborators<V, C>,
    otherCheck: (string, V, int, string) -> bool)
    requires payload.voucher.None?
    ensures UpdateProposal(p, payload, env) == UpdateProposal(p, payload, env.(viaVoucher := otherCheck))
  {
  }

  /** A forbidden update is answered with HTTP 403 and code ERR_1005. */
  lemma ForbiddenResponse<V, C>(p: Proposal, payload: UpdatePayload<V, C>, env: Collaborators<V, C>)
    requires payload.status == Cancelled && !Authorized(p, payload, env)
    ensures UpdateProposal(p, payload, env).Failure?
    ensures ToResponse(UpdateProposal(p, payload, env).error).statusCode == 403
    ensures ToResponse(UpdateProposal(p, payload, env).error).errorCode == "ERR_1005"
  {
  }

  /**
   * The current status is never consulted: a proposal that is already cancelled or
   * closed is cancelled again when an author asks and the pin and save succeed.
   */
  lemma AnyStatusCanBeCancelled<V, C>(p: Proposal, payload: UpdatePayload<V, C>, env: Collaborators<V, C>)
    requires payload.status == Cancelled && Authorized(p, payload, env)
    requires env.pin(p.(status := Cancelled)).Some?
    requires env.store(p.(status := Cancelled, cid := env.pin(p.(status := Cancelled)).value))
    ensures UpdateProposal(p, payload, env).Success?
    ensures UpdateProposal(p, payload, env).value.status == Cancelled
  {
  }
}
