/** Activation, revocation and rollback of authorization policies, and the decision cache that is
    cleared on every change of trust. */
module PolicyManagers {
  import opened Results
  import opened TrustStates
  import opened DecisionCaches

  /** The content of a policy artifact that matters here is its bundle version. */
  type Policy = Artifact<nat>

  type Policies = map<string, TrustState<nat>>

  function StateOf(states: Policies, organizationId: string): TrustState<nat> {
    if organizationId in states then states[organizationId] else TrustState(None, None, {})
  }

  /** What activating a verified policy does to its tenant's trust state. */
  function AfterActivate(state: TrustState<nat>, candidate: Policy): Result<TrustState<nat>, TrustDenial> {
    if candidate.digest in state.revoked then Err(Revoked)
    else
      match state.active
      case None =>
        if candidate.content != 1 || candidate.supersedes.Some? then Err(VersionInvalid)
        else Ok(TrustState(Some(candidate), None, state.revoked))
      case Some(previous) =>
        if candidate.content != previous.content + 1 then Err(VersionInvalid)
        else if candidate.supersedes != Some(previous.digest) then Err(PredecessorMismatch)
        else Ok(TrustState(Some(candidate), Some(previous), state.revoked))
  }

  /** Nothing trusted is revoked, and the active policy directly succeeds the last known good. */
  ghost predicate CoherentFor(o: string, state: TrustState<nat>) {
    && Unrevoked(state)
    && (state.active.Some? ==> state.active.value.organizationId == o)
    && (state.lastKnownGood.Some? ==> state.lastKnownGood.value.organizationId == o)
    && (state.active.Some? && state.lastKnownGood.Some? ==>
          && Succeeds(state.lastKnownGood.value, state.active.value)
          && state.active.value.content == state.lastKnownGood.value.content + 1)
  }

  ghost predicate Coherent(states: Policies) {
    forall o | o in states :: CoherentFor(o, states[o])
  }

  /* ---------- The manager object ---------- */

  class PolicyManager {
    var states: Policies
    /** Whose `clear` runs on every change of trust. */
    const cache: DecisionCache

    constructor (cache: DecisionCache)
      ensures states == map[] && this.cache == cache
    {
      states := map[];
      this.cache := cache;
    }

    method Activate(artifact: Policy, now: int) returns (result: Result<Policy, TrustDenial>)
      modifies this`states, cache`items
      ensures var verified := InForce(artifact, now, NotYetEffective);
              var next := AfterActivate(StateOf(old(states), artifact.organizationId), artifact);
              if verified.Ok? && next.Ok?
              then
                && result == Ok(artifact) && cache.items == []
                && states == old(states)[artifact.organizationId := next.value]
              else result == Err(if verified.Err? then verified.code else next.code) &&
                   states == old(states) && cache.items == old(cache.items)
    {
      var verified := InForce(artifact, now, NotYetEffective);
      if verified.Err? {
        return Err(verified.code);
      }
      var previous := StateOf(states, artifact.organizationId);
      if artifact.digest in previous.revoked {
        return Err(Revoked);
      }
      var next;
      if previous.active.None? {
        if artifact.content != 1 || artifact.supersedes.Some? {
          return Err(VersionInvalid);
        }
        next := TrustState(Some(artifact), None, previous.revoked);
      } else {
        if artifact.content != previous.active.value.content + 1 {
          return Err(VersionInvalid);
        }
        if artifact.supersedes != Some(previous.active.value.digest) {
          return Err(PredecessorMismatch);
        }
        next := TrustState(Some(artifact), previous.active, previous.revoked);
      }
      states := states[artifact.organizationId := next];
      cache.Clear();
      return Ok(artifact);
    }

    method Active(organizationId: string, now: int) returns (result: Result<Policy, TrustDenial>)
      modifies cache`items
      ensures result == ActiveIn(StateOf(states, organizationId), now)
      ensures cache.items == if result == Err(Expired) then [] else old(cache.items)
    {
      var state := StateOf(states, organizationId);
      if state.active.None? {
        return Err(Unavailable);
      }
      var policy := state.active.value;
      if policy.digest in state.revoked {
        return Err(Revoked);
      }
      if now < policy.effectiveAt {
        return Err(NotYetEffective);
      }
      if now >= policy.expiresAt {
        cache.Clear();
        return Err(Expired);
      }
      return Ok(policy);
    }

    method Revoke(organizationId: string, digest: string)
      modifies this`states, cache`items
      ensures states == old(states)[organizationId := AfterRevoke(StateOf(old(states), organizationId), digest)]
      ensures cache.items == []
    {
      var state := StateOf(states, organizationId);
      var active, last := state.active, state.lastKnownGood;
      if active.Some? && active.value.digest == digest {
        active := None;
      }
      if last.Some? && last.value.digest == digest {
        last := None;
      }
      states := states[organizationId := TrustState(active, last, state.revoked + {digest})];
      cache.Clear();
    }

    method Rollback(organizationId: string, now: int) returns (result: Result<Policy, TrustDenial>)
      modifies this`states, cache`items
      ensures var next := AfterRollback(StateOf(old(states), organizationId), now);
              match next
              case Ok(state) =>
                && state.active.Some? && result == Ok(state.active.value)
                && states == old(states)[organizationId := state] && cache.items == []
              case Err(code) => result == Err(code) && states == old(states) && cache.items == old(cache.items)
    {
      var state := StateOf(states, organizationId);
      var candidate := state.lastKnownGood;
      if candidate.None? || candidate.value.digest in state.revoked || !candidate.value.ActiveAt(now) {
        return Err(LastKnownGoodUnavailable);
      }
      states := states[organizationId := TrustState(candidate, None, state.revoked)];
      cache.Clear();
      return Ok(candidate.value);
    }
  }
}
