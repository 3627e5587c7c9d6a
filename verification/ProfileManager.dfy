/** Activation, revocation and rollback of guardrail profiles, and the open streams that are closed
    on every change of trust. */
module ProfileManagers {
  import opened Results
  import opened TrustStates
  import opened Streams
  import opened StreamRegistries

  datatype ProfileKey = ProfileKey(organizationId: string, profileId: string)

  type Profiles = map<ProfileKey, TrustState<ProfileContent>>

  function StateOf(states: Profiles, key: ProfileKey): TrustState<ProfileContent> {
    if key in states then states[key] else TrustState(None, None, {})
  }

  /** Versions compare number by number, as tuples do. */
  predicate Later(a: Version, b: Version) {
    || a.major > b.major
    || (a.major == b.major && a.minor > b.minor)
    || (a.major == b.major && a.minor == b.minor && a.patch > b.patch)
  }

  function AfterActivate(state: TrustState<ProfileContent>, candidate: Profile)
    : Result<TrustState<ProfileContent>, TrustDenial>
  {
    if candidate.digest in state.revoked then Err(Revoked)
    else
      match state.active
      case None =>
        if candidate.supersedes.Some? then Err(PredecessorMismatch)
        else Ok(TrustState(Some(candidate), None, state.revoked))
      case Some(previous) =>
        if !Later(candidate.content.version, previous.content.version) then Err(VersionInvalid)
        else if candidate.supersedes != Some(previous.digest) then Err(PredecessorMismatch)
        else Ok(TrustState(Some(candidate), Some(previous), state.revoked))
  }

  ghost predicate Owns(key: ProfileKey, artifact: Option<Profile>) {
    artifact.Some? ==> artifact.value.organizationId == key.organizationId && artifact.value.name == key.profileId
  }

  /** Nothing trusted is revoked, and the active profile succeeds the last known good with a
      strictly later version. */
  ghost predicate CoherentFor(key: ProfileKey, state: TrustState<ProfileContent>) {
    && Unrevoked(state)
    && Owns(key, state.active)
    && Owns(key, state.lastKnownGood)
    && (state.active.Some? && state.lastKnownGood.Some? ==>
          && Succeeds(state.lastKnownGood.value, state.active.value)
          && Later(state.active.value.content.version, state.lastKnownGood.value.content.version))
  }

  ghost predicate Coherent(states: Profiles) {
    forall key | key in states :: CoherentFor(key, states[key])
  }

  /* ---------- The manager object ---------- */

  class ProfileManager {
    var states: Profiles
    /** Whose `expire_profile` runs on every change of trust. */
    const streams: StreamRegistry

    constructor (streams: StreamRegistry)
      ensures states == map[] && this.streams == streams
    {
      states := map[];
      this.streams := streams;
    }

    method Activate(artifact: Profile, now: int) returns (result: Result<Profile, TrustDenial>)
      requires streams.Valid()
      modifies this`states, streams.Objects()
      ensures streams.Valid() && streams.sessions == old(streams.sessions)
      ensures var key := ProfileKey(artifact.organizationId, artifact.name);
              var verified := InForce(artifact, now, TimeInvalid);
              var next := AfterActivate(StateOf(old(states), key), artifact);
              if verified.Ok? && next.Ok?
              then result == Ok(artifact) && states == old(states)[key := next.value] &&
                   streams.View() == ExpireProfile(old(streams.View()), key.organizationId, key.profileId)
              else result == Err(if verified.Err? then verified.code else next.code) &&
                   states == old(states) && streams.View() == old(streams.View())
    {
      var verified := InForce(artifact, now, TimeInvalid);
      if verified.Err? {
        return Err(verified.code);
      }
      var key := ProfileKey(artifact.organizationId, artifact.name);
      var previous := StateOf(states, key);
      if artifact.digest in previous.revoked {
        return Err(Revoked);
      }
      var next;
      if previous.active.None? {
        if artifact.supersedes.Some? {
          return Err(PredecessorMismatch);
        }
        next := TrustState(Some(artifact), None, previous.revoked);
      } else {
        if !Later(artifact.content.version, previous.active.value.content.version) {
          return Err(VersionInvalid);
        }
        if artifact.supersedes != Some(previous.active.value.digest) {
          return Err(PredecessorMismatch);
        }
        next := TrustState(Some(artifact), previous.active, previous.revoked);
      }
      states := states[key := next];
      streams.ExpireProfile(key.organizationId, key.profileId);
      return Ok(artifact);
    }

    method Active(key: ProfileKey, now: int) returns (result: Result<Profile, TrustDenial>)
      requires streams.Valid()
      modifies streams.Objects()
      ensures streams.Valid() && streams.sessions == old(streams.sessions)
      ensures result == ActiveIn(StateOf(states, key), now)
      ensures streams.View() == if result == Err(TrustDenial.Expired)
                                then ExpireProfile(old(streams.View()), key.organizationId, key.profileId)
                                else old(streams.View())
    {
      var state := StateOf(states, key);
      if state.active.None? {
        return Err(Unavailable);
      }
      var profile := state.active.value;
      if profile.digest in state.revoked {
        return Err(Revoked);
      }
      if now < profile.effectiveAt {
        return Err(NotYetEffective);
      }
      if now >= profile.expiresAt {
        streams.ExpireProfile(key.organizationId, key.profileId);
        return Err(TrustDenial.Expired);
      }
      return Ok(profile);
    }

    method Revoke(key: ProfileKey, digest: string)
      requires streams.Valid()
      modifies this`states, streams.Objects()
      ensures streams.Valid() && streams.sessions == old(streams.sessions)
      ensures states == old(states)[key := AfterRevoke(StateOf(old(states), key), digest)]
      ensures streams.View() == ExpireProfile(old(streams.View()), key.organizationId, key.profileId)
    {
      var state := StateOf(states, key);
      var active, last := state.active, state.lastKnownGood;
      if active.Some? && active.value.digest == digest {
        active := None;
      }
      if last.Some? && last.value.digest == digest {
        last := None;
      }
      states := states[key := TrustState(active, last, state.revoked + {digest})];
      streams.ExpireProfile(key.organizationId, key.profileId);
    }

    method Rollback(key: ProfileKey, now: int) returns (result: Result<Profile, TrustDenial>)
      requires streams.Valid()
      modifies this`states, streams.Objects()
      ensures streams.Valid() && streams.sessions == old(streams.sessions)
      ensures var next := AfterRollback(StateOf(old(states), key), now);
              match next
              case Ok(state) =>
                && state.active.Some? && result == Ok(state.active.value)
                && states == old(states)[key := state]
                && streams.View() == ExpireProfile(old(streams.View()), key.organizationId, key.profileId)
              case Err(code) => result == Err(code) && states == old(states) && streams.View() == old(streams.View())
    {
      var state := StateOf(states, key);
      var candidate := state.lastKnownGood;
      if candidate.None? || candidate.value.digest in state.revoked || !candidate.value.ActiveAt(now) {
        return Err(LastKnownGoodUnavailable);
      }
      states := states[key := TrustState(candidate, None, state.revoked)];
      streams.ExpireProfile(key.organizationId, key.profileId);
      return Ok(candidate.value);
    }
  }
}
