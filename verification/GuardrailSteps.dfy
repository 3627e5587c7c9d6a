/** What the streaming operations of the guardrail service compute over profiles and streams, which
    are coupled by a callback: every change of trust in a profile closes its open streams. */
module GuardrailSteps {
  import opened Results
  import opened TrustStates
  import opened Streams
  import opened ProfileManagers

  datatype Reply =
    | ProfileRefused(code: TrustDenial)
    | StreamRefused(reason: StreamDenial)
    | AuditCommitFailed
    | Created(session: SessionView)
    | Evaluated(evaluation: Evaluation)
    | Trusted(profile: Profile)
    | Done

  datatype World = World(profiles: Profiles, sessions: Sessions, records: seq<Evaluation>)

  const START: World := World(map[], map[], [])

  datatype Event =
    | Activate(artifact: Profile, now: int)
    | Revoke(profile: ProfileKey, digest: string)
    | Rollback(profile: ProfileKey, now: int)
    /** An evaluation outside a stream, which only asks for the active profile. */
    | Query(profile: ProfileKey, now: int)
    /** `id` is the identifier drawn for the new stream. */
    | CreateStream(organizationId: string, profileId: string, id: string, now: int)
    /** `verdict` is what the detectors answer. */
    | PushStream(stream: StreamKey, sequence: int, content: Bytes, verdict: Verdict, now: int, storeFails: bool)
    | FinishStream(stream: StreamKey, sequence: int, verdict: Verdict, now: int, storeFails: bool)

  /* ---------- Steps ---------- */

  /** `active`: an expired profile counts as a change of trust. */
  function SessionsAfterActive(m: Sessions, states: Profiles, key: ProfileKey, now: int): Sessions {
    if ActiveIn(StateOf(states, key), now) == Err(TrustDenial.Expired)
    then ExpireProfile(m, key.organizationId, key.profileId)
    else m
  }

  /** A trust state that has just been replaced, and the callback's effect. */
  function Replaced(w: World, key: ProfileKey, state: TrustState<ProfileContent>): World {
    w.(profiles := w.profiles[key := state], sessions := ExpireProfile(w.sessions, key.organizationId, key.profileId))
  }

  function CreateStep(w: World, organizationId: string, profileId: string, id: string, now: int): (World, Reply) {
    var key := ProfileKey(organizationId, profileId);
    var m := SessionsAfterActive(w.sessions, w.profiles, key, now);
    match ActiveIn(StateOf(w.profiles, key), now)
    case Err(code) => (w.(sessions := m), ProfileRefused(code))
    case Ok(profile) =>
      var (m', result) := Create(m, StreamKey(organizationId, id), profile, now);
      (w.(sessions := m'),
       match result
       case Err(code) => StreamRefused(code)
       case Ok(session) => Created(session))
  }

  /** What a push and a finish do first: find the stream, then the active profile of its name. */
  function Admit(w: World, stream: StreamKey, now: int): (Sessions, Result<Profile, Reply>) {
    var (looked, found) := Find(w.sessions, stream, now);
    match found
    case Err(code) => (looked, Err(StreamRefused(code)))
    case Ok(session) =>
      var key := ProfileKey(stream.organizationId, session.profileId);
      (SessionsAfterActive(looked, w.profiles, key, now),
       match ActiveIn(StateOf(w.profiles, key), now)
       case Err(code) => Err(ProfileRefused(code))
       case Ok(profile) => Ok(profile))
  }

  /** The registry's answer to a push or a finish, when it gets that far. */
  function Outcome(w: World, e: Event): (Sessions, Result<Evaluation, Reply>)
    requires e.PushStream? || e.FinishStream?
  {
    if e.PushStream? && e.content == [] then (w.sessions, Err(StreamRefused(StreamRequestMalformed)))
    else
      var (m, admitted) := Admit(w, e.stream, e.now);
      match admitted
      case Err(reply) => (m, Err(reply))
      case Ok(profile) =>
        var (m', result) :=
          match e
          case PushStream(stream, sequence, content, verdict, now, _) =>
            Push(m, stream, sequence, content, profile.digest, verdict, now)
          case FinishStream(stream, sequence, verdict, now, _) =>
            Finish(m, stream, sequence, profile.digest, verdict, now);
        (m',
         match result
         case Err(code) => Err(StreamRefused(code))
         case Ok(evaluation) => Ok(evaluation))
  }

  /** The record is written after the stream has moved on. */
  function StreamStep(w: World, e: Event): (World, Reply)
    requires e.PushStream? || e.FinishStream?
  {
    var (m, outcome) := Outcome(w, e);
    match outcome
    case Err(reply) => (w.(sessions := m), reply)
    case Ok(evaluation) =>
      if e.storeFails then (w.(sessions := m), AuditCommitFailed)
      else (w.(sessions := m, records := w.records + [evaluation]), Evaluated(evaluation))
  }

  function Step(w: World, e: Event): (World, Reply) {
    match e
    case Activate(artifact, now) =>
      (var key := ProfileKey(artifact.organizationId, artifact.name);
       match InForce(artifact, now, TimeInvalid)
       case Err(code) => (w, ProfileRefused(code))
       case Ok(_) =>
         match AfterActivate(StateOf(w.profiles, key), artifact)
         case Err(code) => (w, ProfileRefused(code))
         case Ok(state) => (Replaced(w, key, state), Trusted(artifact)))
    case Revoke(key, digest) => (Replaced(w, key, AfterRevoke(StateOf(w.profiles, key), digest)), Done)
    case Rollback(key, now) =>
      (match AfterRollback(StateOf(w.profiles, key), now)
       case Err(code) => (w, ProfileRefused(code))
       case Ok(state) => (Replaced(w, key, state), if state.active.Some? then Trusted(state.active.value) else Done))
    case Query(key, now) =>
      (w.(sessions := SessionsAfterActive(w.sessions, w.profiles, key, now)),
       match ActiveIn(StateOf(w.profiles, key), now)
       case Err(code) => ProfileRefused(code)
       case Ok(profile) => Trusted(profile))
    case CreateStream(organizationId, profileId, id, now) => CreateStep(w, organizationId, profileId, id, now)
    case PushStream(_, _, _, _, _, _) => StreamStep(w, e)
    case FinishStream(_, _, _, _, _) => StreamStep(w, e)
  }

  function Run(es: seq<Event>): World {
    if es == [] then START else Step(Run(es[..|es| - 1]), es[|es| - 1]).0
  }
}
