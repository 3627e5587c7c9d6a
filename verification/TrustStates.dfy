/** The trust state that policies and guardrail profiles share: what is active, what was last known
    good, and what has been revoked. */
module TrustStates {
  import opened Results

  datatype TrustDenial =
    | Revoked | VersionInvalid | PredecessorMismatch
    | TimeInvalid | Unavailable | NotYetEffective | Expired
    | LastKnownGoodUnavailable

  /** A verified artifact: signature, key set and module digests have been checked. `content` is
      what the two kinds of artifact do not share. */
  datatype Artifact<C> = Artifact(
    organizationId: string, name: string, digest: string, content: C,
    effectiveAt: int, expiresAt: int, supersedes: Option<string>)
  {
    predicate ActiveAt(now: int) {
      effectiveAt <= now < expiresAt
    }
  }

  datatype TrustState<C> = TrustState(active: Option<Artifact<C>>, lastKnownGood: Option<Artifact<C>>,
                                      revoked: set<string>)

  /** What verification checks of the artifact's own validity period; `empty` is the code for a
      period without any moment. */
  function InForce<C>(candidate: Artifact<C>, now: int, empty: TrustDenial): Result<Artifact<C>, TrustDenial> {
    if candidate.effectiveAt >= candidate.expiresAt then Err(empty)
    else if now < candidate.effectiveAt then Err(NotYetEffective)
    else if candidate.expiresAt <= now then Err(Expired)
    else Ok(candidate)
  }

  /** What `active` answers; `Expired` also counts as a change of trust. */
  function ActiveIn<C>(state: TrustState<C>, now: int): Result<Artifact<C>, TrustDenial> {
    if state.active.None? then Err(Unavailable)
    else
      var artifact := state.active.value;
      if artifact.digest in state.revoked then Err(Revoked)
      else if now < artifact.effectiveAt then Err(NotYetEffective)
      else if artifact.expiresAt <= now then Err(Expired)
      else Ok(artifact)
  }

  function Keep<C>(artifact: Option<Artifact<C>>, revoked: string): Option<Artifact<C>> {
    if artifact.Some? && artifact.value.digest == revoked then None else artifact
  }

  function AfterRevoke<C>(state: TrustState<C>, digest: string): TrustState<C> {
    TrustState(Keep(state.active, digest), Keep(state.lastKnownGood, digest), state.revoked + {digest})
  }

  function AfterRollback<C>(state: TrustState<C>, now: int): Result<TrustState<C>, TrustDenial> {
    var candidate := state.lastKnownGood;
    if candidate.None? || candidate.value.digest in state.revoked || !candidate.value.ActiveAt(now)
    then Err(LastKnownGoodUnavailable)
    else Ok(TrustState(candidate, None, state.revoked))
  }

  /* ---------- Coherence ---------- */

  ghost predicate Unrevoked<C>(state: TrustState<C>) {
    && (state.active.Some? ==> state.active.value.digest !in state.revoked)
    && (state.lastKnownGood.Some? ==> state.lastKnownGood.value.digest !in state.revoked)
  }

  /** `next` may replace `previous`: it names it as its predecessor. */
  ghost predicate Succeeds<C>(previous: Artifact<C>, next: Artifact<C>) {
    next.supersedes == Some(previous.digest)
  }
}
