/** The exact answer of every streaming call and every change of trust of a run, and what it leaves of
    the sessions, told from the profiles and the sessions that the run has reached. */
module GuardrailAnswers {
  import opened Results
  import opened TrustStates
  import opened Streams
  import opened ProfileManagers
  import opened GuardrailSteps
  import opened GuardrailTheorems
  import opened GuardrailRecords

  /* ---------- Housekeeping ---------- */

  /** A session that has been idle for a minute is closed and emptied. */
  function Aged(s: SessionView, now: int): SessionView {
    if s.state == Open && now - s.lastSeen >= 60
    then SessionView(s.organizationId, s.profileId, s.profileDigest, StreamState.Expired, s.nextSequence, s.lastSeen, 0,
                     [], Some(now))
    else s
  }

  /** The sessions at `now`: idle ones closed, and those closed two minutes ago or more forgotten. */
  function Tidy(m: Sessions, now: int): Sessions {
    map k | k in m && !(m[k].closedAt.Some? && now - m[k].closedAt.value >= 120) :: Aged(m[k], now)
  }

  /** The sessions with every open one of the profile closed and emptied, as of when it was last seen. */
  function ClosedFor(m: Sessions, key: ProfileKey): Sessions {
    map k | k in m ::
      var s := m[k];
      if s.organizationId == key.organizationId && s.profileId == key.profileId && s.state == Open
      then SessionView(s.organizationId, s.profileId, s.profileDigest, StreamState.Expired, s.nextSequence, s.lastSeen,
                       0, [], Some(s.lastSeen))
      else s
  }

  lemma TidyIsExact(w: World, now: int)
    requires Sound(w)
    ensures ExpireAndPrune(w.sessions, now) == Tidy(w.sessions, now)
  {
    forall k | k in w.sessions ensures SessionOk(k, w.sessions[k]) {
    }
  }

  lemma ClosedForIsExact(m: Sessions, key: ProfileKey)
    ensures ExpireProfile(m, key.organizationId, key.profileId) == ClosedFor(m, key)
  {
  }

  /* ---------- The profile of a call ---------- */

  function ActiveOf(w: World, key: ProfileKey): Option<Profile> {
    if key in w.profiles then w.profiles[key].active else None
  }

  function LastOf(w: World, key: ProfileKey): Option<Profile> {
    if key in w.profiles then w.profiles[key].lastKnownGood else None
  }

  function RevokedIn(w: World, key: ProfileKey): set<string> {
    if key in w.profiles then w.profiles[key].revoked else {}
  }

  /** The active profile of that name is in force at `now`. */
  ghost predicate Serves(w: World, key: ProfileKey, now: int) {
    ActiveOf(w, key).Some? && ActiveOf(w, key).value.effectiveAt <= now < ActiveOf(w, key).value.expiresAt
  }

  /** What a caller is told when no profile of that name is in force, and what becomes of the sessions
      `m`: finding a profile expired closes its open streams. */
  ghost predicate RefusesProfile(w: World, m: Sessions, key: ProfileKey, now: int, w': World, reply: Reply) {
    if ActiveOf(w, key).None? then w' == w.(sessions := m) && reply == ProfileRefused(Unavailable)
    else if now < ActiveOf(w, key).value.effectiveAt
    then w' == w.(sessions := m) && reply == ProfileRefused(NotYetEffective)
    else w' == w.(sessions := ClosedFor(m, key)) && reply == ProfileRefused(TrustDenial.Expired)
  }

  lemma ActiveIsExact(w: World, key: ProfileKey, now: int)
    requires Sound(w)
    ensures ActiveIn(StateOf(w.profiles, key), now) ==
            if ActiveOf(w, key).None? then Err(Unavailable)
            else if now < ActiveOf(w, key).value.effectiveAt then Err(NotYetEffective)
            else if ActiveOf(w, key).value.expiresAt <= now then Err(TrustDenial.Expired)
            else Ok(ActiveOf(w, key).value)
  {
    SoundTrust(w, key);
  }

  /* ---------- Pushes and finishes ---------- */

  /** The session after a chunk on which the detectors answered `verdict`: three verdicts end the stream
      and empty it, the other three add the chunk. */
  function AfterChunk(s: SessionView, content: Bytes, verdict: Streams.Verdict, now: int): SessionView {
    match verdict
    case Deny | Quarantine | ErrorFailClosed =>
      SessionView(s.organizationId, s.profileId, s.profileDigest, Terminated, s.nextSequence + 1, now, 0, [], Some(now))
    case Allow | Redact | ErrorFailOpen =>
      SessionView(s.organizationId, s.profileId, s.profileDigest, Open, s.nextSequence + 1, now,
                  s.bufferedBytes + |content|, s.consumed + content, s.closedAt)
  }

  function AfterEnd(s: SessionView, now: int): SessionView {
    SessionView(s.organizationId, s.profileId, s.profileDigest, Finished, s.nextSequence + 1, now, 0, [], Some(now))
  }

  /** What an accepted step reports about the open session `s`. */
  function Report(s: SessionView, e: Event): Evaluation
    requires e.PushStream? || e.FinishStream?
  {
    if e.PushStream?
    then Evaluation(e.verdict, AfterChunk(s, e.content, e.verdict, e.now), s.consumed + e.content,
                    |s.consumed| + |e.content|)
    else Evaluation(e.verdict, AfterEnd(s, e.now), s.consumed, |s.consumed|)
  }

  /** The step is accepted: its own session moves on, and the report is handed out if it was recorded. */
  ghost predicate Accepts(w: World, m: Sessions, s: SessionView, e: Event, w': World, reply: Reply)
    requires e.PushStream? || e.FinishStream?
  {
    var report := Report(s, e);
    && w'.profiles == w.profiles
    && w'.sessions == m[e.stream := report.session]
    && if e.storeFails then reply == AuditCommitFailed && w'.records == w.records
       else reply == Evaluated(report) && w'.records == w.records + [report]
  }

  ghost predicate RefusesStep(w: World, m: Sessions, w': World, reply: Reply, code: StreamDenial) {
    w' == w.(sessions := m) && reply == StreamRefused(code)
  }

  /** The answer of a push or a finish that has found its session `s` open. */
  ghost predicate AnswersOpen(w: World, m: Sessions, s: SessionView, e: Event, w': World, reply: Reply)
    requires e.PushStream? || e.FinishStream?
  {
    var key := ProfileKey(e.stream.organizationId, s.profileId);
    if !Serves(w, key, e.now) then RefusesProfile(w, m, key, e.now, w', reply)
    else if e.sequence < 1 then RefusesStep(w, m, w', reply, StreamRequestMalformed)
    else if e.sequence != s.nextSequence then RefusesStep(w, m, w', reply, StreamSequenceInvalid)
    else Accepts(w, m, s, e, w', reply)
  }

  /** The answer of a push or a finish. */
  ghost predicate AnswersStep(w: World, e: Event, w': World, reply: Reply)
    requires e.PushStream? || e.FinishStream?
  {
    var m := Tidy(w.sessions, e.now);
    if e.PushStream? && e.content == [] then RefusesStep(w, w.sessions, w', reply, StreamRequestMalformed)
    else if !("stream." <= e.stream.streamId) then RefusesStep(w, w.sessions, w', reply, StreamNotFound)
    else if e.stream !in m then RefusesStep(w, m, w', reply, StreamNotFound)
    else if m[e.stream].state == StreamState.Expired then RefusesStep(w, m, w', reply, StreamExpired)
    else if m[e.stream].state == Terminated then RefusesStep(w, m, w', reply, StreamTerminated)
    else if m[e.stream].state == Finished then RefusesStep(w, m, w', reply, StreamFinished)
    else AnswersOpen(w, m, m[e.stream], e, w', reply)
  }

  /** What the registry does with a step on the session it has found, under the profile in force. */
  lemma RegistryIsExact(w: World, m: Sessions, e: Event, digest: string)
    requires e.PushStream? || e.FinishStream?
    requires e.PushStream? ==> e.content != []
    requires e.stream in m && Find(m, e.stream, e.now) == (m, Ok(m[e.stream]))
    requires SessionOk(e.stream, m[e.stream]) && m[e.stream].profileDigest == digest
    ensures var result :=
              match e
              case PushStream(stream, sequence, content, verdict, now, _) =>
                Push(m, stream, sequence, content, digest, verdict, now)
              case FinishStream(stream, sequence, verdict, now, _) =>
                Finish(m, stream, sequence, digest, verdict, now);
            result ==
            if e.sequence < 1 then (m, Err(StreamRequestMalformed))
            else if e.sequence != m[e.stream].nextSequence then (m, Err(StreamSequenceInvalid))
            else (m[e.stream := Report(m[e.stream], e).session], Ok(Report(m[e.stream], e)))
  {
    hide Find;
  }

  lemma FoundIsExact(w: World, e: Event)
    requires Sound(w) && (e.PushStream? || e.FinishStream?) && IsStreamId(e.stream.streamId)
    ensures var m := Tidy(w.sessions, e.now);
            Find(w.sessions, e.stream, e.now) ==
            (m, if e.stream !in m then Err(StreamNotFound)
                else if m[e.stream].state == StreamState.Expired then Err(StreamExpired)
                else if m[e.stream].state == Terminated then Err(StreamTerminated)
                else if m[e.stream].state == Finished then Err(StreamFinished)
                else Ok(m[e.stream]))
  {
    hide ExpireAndPrune, Tidy, Sound;
    TidyIsExact(w, e.now);
  }

  lemma NotAStream(m: Sessions, key: StreamKey, now: int)
    requires !IsStreamId(key.streamId)
    ensures Find(m, key, now) == (m, Err(StreamNotFound)) && !("stream." <= key.streamId)
  {
  }

  lemma OpenIsExact(w: World, e: Event)
    requires Sound(w) && (e.PushStream? || e.FinishStream?) && IsStreamId(e.stream.streamId)
    requires e.PushStream? ==> e.content != []
    requires e.stream in Tidy(w.sessions, e.now) && Tidy(w.sessions, e.now)[e.stream].state == Open
    ensures var m := Tidy(w.sessions, e.now);
            AnswersOpen(w, m, m[e.stream], e, StreamStep(w, e).0, StreamStep(w, e).1)
  {
    hide Sound, Find, ActiveIn, StateOf, Push, Finish, Report, Tidy, ClosedFor, ExpireProfile;
    var m := Tidy(w.sessions, e.now);
    var s := m[e.stream];
    var key := ProfileKey(e.stream.organizationId, s.profileId);
    FoundIsExact(w, e);
    ActiveIsExact(w, key, e.now);
    ClosedForIsExact(m, key);
    if Serves(w, key, e.now) {
      AdmittedIsPinned(w, e.stream, e.now);
      TidySession(w, e);
      RegistryIsExact(w, m, e, ActiveOf(w, key).value.digest);
    }
  }

  lemma TidySession(w: World, e: Event)
    requires Sound(w) && (e.PushStream? || e.FinishStream?) && e.stream in Tidy(w.sessions, e.now)
    ensures SessionOk(e.stream, Tidy(w.sessions, e.now)[e.stream])
  {
    SoundSession(w, e.stream);
  }

  /** For every run and every push and finish, the one answer it gives, and the sessions it leaves. */
  lemma StepsAreExact(es: seq<Event>, e: Event)
    requires e.PushStream? || e.FinishStream?
    ensures var (w', reply) := Step(Run(es), e); AnswersStep(Run(es), e, w', reply)
  {
    hide Sound, Run, Find, Tidy, AnswersOpen;
    RunKeeps(es);
    var w := Run(es);
    if IsStreamId(e.stream.streamId) && (e.PushStream? ==> e.content != []) {
      FoundIsExact(w, e);
      if e.stream in Tidy(w.sessions, e.now) && Tidy(w.sessions, e.now)[e.stream].state == Open {
        OpenIsExact(w, e);
      }
    } else if !IsStreamId(e.stream.streamId) {
      NotAStream(w.sessions, e.stream, e.now);
    }
  }

  /* ---------- The end of a denied stream ---------- */

  /** A push that is accepted with a denial, a quarantine or a failure that closes ends its stream, which
      holds no content any more and accepts no further step until its identifier is drawn again. */
  lemma DenialsEndTheStream(es: seq<Event>, e: Event, more: seq<Event>, again: Event)
    requires e.PushStream? && Outcome(Run(es), e).1.Ok?
    requires e.verdict == Deny || e.verdict == Quarantine || e.verdict == ErrorFailClosed
    requires forall x | x in more && x.CreateStream? :: StreamKey(x.organizationId, x.id) != e.stream
    requires (again.PushStream? || again.FinishStream?) && again.stream == e.stream
    ensures var m := Run(es + [e]).sessions;
            && e.stream in m && m[e.stream].state == Terminated
            && m[e.stream].consumed == [] && m[e.stream].bufferedBytes == 0 && m[e.stream].closedAt == Some(e.now)
    ensures Outcome(Run(es + [e] + more), again).1.Err?
  {
    hide Run, Outcome, Sound, Step;
    AcceptedMovesExactly(es, e);
    RunAppended(es, e);
    ClosedStaysClosed(es + [e], more, e.stream);
  }

  /** A push that is accepted with an allow, a redaction or a failure that stays open keeps its stream
      open, with the chunk added to what it held. */
  lemma OthersKeepItOpen(es: seq<Event>, e: Event)
    requires e.PushStream? && Outcome(Run(es), e).1.Ok?
    requires e.verdict == Allow || e.verdict == Redact || e.verdict == ErrorFailOpen
    ensures e.stream in Run(es).sessions && e.stream in Run(es + [e]).sessions
    ensures var s, s' := Run(es).sessions[e.stream], Run(es + [e]).sessions[e.stream];
            && s'.state == Open && s'.closedAt == None
            && s'.consumed == s.consumed + e.content && s'.bufferedBytes == |s.consumed| + |e.content|
            && s'.nextSequence == e.sequence + 1 && s'.lastSeen == e.now
  {
    hide Run, Outcome, Sound, Step;
    AcceptedMovesExactly(es, e);
    RunAppended(es, e);
    RunKeeps(es);
    SoundSession(Run(es), e.stream);
  }

  /** An accepted push leaves its session exactly as the verdict demands. */
  lemma AcceptedMovesExactly(es: seq<Event>, e: Event)
    requires e.PushStream? && Outcome(Run(es), e).1.Ok?
    ensures e.stream in Run(es).sessions && Run(es).sessions[e.stream].state == Open
    ensures e.stream in Step(Run(es), e).0.sessions
    ensures Step(Run(es), e).0.sessions[e.stream] == AfterChunk(Run(es).sessions[e.stream], e.content, e.verdict, e.now)
    ensures e.sequence == Run(es).sessions[e.stream].nextSequence
  {
    hide Run, Sound, Admit, Find;
    RunKeeps(es);
    AcceptedOnOpen(Run(es), e, Outcome(Run(es), e).1.value);
    AdmittedIsPinned(Run(es), e.stream, e.now);
    OpenIsFresh(Run(es).sessions, e.stream, e.now);
  }

  /* ---------- New streams ---------- */

  /** The tenant's streams that are open and have not been idle for a minute. */
  function LiveStreams(m: Sessions, o: string, now: int): set<StreamKey> {
    set k | k in m && m[k].organizationId == o && m[k].state == Open && now - m[k].lastSeen < 60
  }

  /** The answer of a call that creates a stream. */
  ghost predicate AnswersCreate(w: World, o: string, profileId: string, id: string, now: int, w': World, reply: Reply)
  {
    var key := ProfileKey(o, profileId);
    if !Serves(w, key, now) then RefusesProfile(w, w.sessions, key, now, w', reply)
    else
      var profile := ActiveOf(w, key).value;
      if profile.content.stage != Streaming then RefusesStep(w, w.sessions, w', reply, StreamProfileRequired)
      else if |LiveStreams(w.sessions, o, now)| >= 128
      then RefusesStep(w, Tidy(w.sessions, now), w', reply, StreamCapacityExceeded)
      else
        var s := SessionView(o, profileId, profile.digest, Open, 1, now, 0, [], None);
        w' == w.(sessions := Tidy(w.sessions, now)[StreamKey(o, id) := s]) && reply == Created(s)
  }

  lemma LiveIsOpen(w: World, o: string, now: int)
    requires Sound(w)
    ensures OpenStreams(Tidy(w.sessions, now), o) == LiveStreams(w.sessions, o, now)
  {
    forall k | k in w.sessions ensures SessionOk(k, w.sessions[k]) {
    }
  }

  lemma OpeningIsExact(w: World, o: string, id: string, profile: Profile, now: int)
    requires Sound(w) && profile.organizationId == o
    ensures Create(w.sessions, StreamKey(o, id), profile, now) ==
            if profile.content.stage != Streaming then (w.sessions, Err(StreamProfileRequired))
            else if |LiveStreams(w.sessions, o, now)| >= 128 then (Tidy(w.sessions, now), Err(StreamCapacityExceeded))
            else
              var s := SessionView(o, profile.name, profile.digest, Open, 1, now, 0, [], None);
              (Tidy(w.sessions, now)[StreamKey(o, id) := s], Ok(s))
  {
    hide Sound, ExpireAndPrune, Tidy, LiveStreams, OpenStreams;
    TidyIsExact(w, now);
    LiveIsOpen(w, o, now);
  }

  /** For every run and every call that creates a stream, the one answer it gives: it succeeds exactly
      when a profile for streaming is in force and fewer than 128 streams of the tenant are live. */
  lemma CreateIsExact(es: seq<Event>, o: string, profileId: string, id: string, now: int)
    ensures var (w', reply) := Step(Run(es), CreateStream(o, profileId, id, now));
            AnswersCreate(Run(es), o, profileId, id, now, w', reply)
  {
    hide Sound, Run, Create, Tidy, LiveStreams, ActiveIn, StateOf, ClosedFor, ExpireProfile;
    RunKeeps(es);
    var w, key := Run(es), ProfileKey(o, profileId);
    ActiveIsExact(w, key, now);
    ClosedForIsExact(w.sessions, key);
    if Serves(w, key, now) {
      ActiveIsNamed(w, key);
      OpeningIsExact(w, o, id, ActiveOf(w, key).value, now);
    }
  }

  lemma ActiveIsNamed(w: World, key: ProfileKey)
    requires Sound(w) && ActiveOf(w, key).Some?
    ensures ActiveOf(w, key).value.organizationId == key.organizationId
    ensures ActiveOf(w, key).value.name == key.profileId
  {
    SoundTrust(w, key);
  }

  /* ---------- Changes of trust ---------- */

  /** Somewhere in the run the digest was revoked for the profile. */
  ghost predicate WasRevoked(es: seq<Event>, key: ProfileKey, digest: string) {
    exists i | 0 <= i < |es| :: es[i] == Revoke(key, digest)
  }

  /** Revoked is what was revoked, and nothing is ever forgotten. */
  lemma {:induction false} RevokedExactly(es: seq<Event>, key: ProfileKey, digest: string)
    ensures digest in RevokedIn(Run(es), key) <==> WasRevoked(es, key, digest)
  {
    if es != [] {
      hide Step;
      var init, e := es[..|es| - 1], es[|es| - 1];
      assert es == init + [e];
      RevokedExactly(init, key, digest);
      RevokedByStep(Run(init), e, key, digest);
      RevokedAppended(init, e, key, digest);
    }
  }

  lemma RevokedByStep(w: World, e: Event, key: ProfileKey, digest: string)
    ensures digest in RevokedIn(Step(w, e).0, key) <==> digest in RevokedIn(w, key) || e == Revoke(key, digest)
  {
    hide CreateStep, Outcome, ExpireProfile, SessionsAfterActive;
    if e.CreateStream? {
      CreateKeepsProfiles(w, e.organizationId, e.profileId, e.id, e.now);
    }
  }

  lemma RevokedAppended(init: seq<Event>, e: Event, key: ProfileKey, digest: string)
    ensures WasRevoked(init + [e], key, digest) <==> WasRevoked(init, key, digest) || e == Revoke(key, digest)
  {
    var es := init + [e];
    if i :| 0 <= i < |init| && init[i] == Revoke(key, digest) {
      assert es[i] == init[i];
    }
    assert es[|init|] == e;
  }

  /** The trust state of the profile is now this one, and its open streams are closed. */
  ghost predicate TrustsNow(w: World, w': World, key: ProfileKey, active: Option<Profile>, last: Option<Profile>,
                            revoked: set<string>)
  {
    && w'.profiles == w.profiles[key := TrustState(active, last, revoked)]
    && w'.sessions == ClosedFor(w.sessions, key)
    && w'.records == w.records
  }

  ghost predicate Refuses(w: World, w': World, reply: Reply, code: TrustDenial) {
    w' == w && reply == ProfileRefused(code)
  }

  /** Version `a` is greater than version `b`, number by number. */
  predicate IsGreater(a: Version, b: Version) {
    if a.major != b.major then a.major > b.major
    else if a.minor != b.minor then a.minor > b.minor
    else a.patch > b.patch
  }

  /** The answer of an activation of a verified profile. */
  ghost predicate AnswersActivation(es: seq<Event>, w: World, artifact: Profile, now: int, w': World, reply: Reply) {
    var key := ProfileKey(artifact.organizationId, artifact.name);
    if artifact.expiresAt <= artifact.effectiveAt then Refuses(w, w', reply, TimeInvalid)
    else if now < artifact.effectiveAt then Refuses(w, w', reply, NotYetEffective)
    else if artifact.expiresAt <= now then Refuses(w, w', reply, TrustDenial.Expired)
    else if WasRevoked(es, key, artifact.digest) then Refuses(w, w', reply, Revoked)
    else if ActiveOf(w, key).None? then
      if artifact.supersedes == None
      then reply == Trusted(artifact) && TrustsNow(w, w', key, Some(artifact), None, RevokedIn(w, key))
      else Refuses(w, w', reply, PredecessorMismatch)
    else
      var previous := ActiveOf(w, key).value;
      if !IsGreater(artifact.content.version, previous.content.version) then Refuses(w, w', reply, VersionInvalid)
      else if artifact.supersedes != Some(previous.digest) then Refuses(w, w', reply, PredecessorMismatch)
      else reply == Trusted(artifact) && TrustsNow(w, w', key, Some(artifact), Some(previous), RevokedIn(w, key))
  }

  /** For every run and every activation, the one answer it gives: a profile in force that was never
      revoked is activated exactly as the first of its name, or with a greater version as the direct
      successor of the active one, which is then the last known good. */
  lemma ActivationIsExact(es: seq<Event>, artifact: Profile, now: int)
    ensures var (w', reply) := Step(Run(es), Activate(artifact, now));
            AnswersActivation(es, Run(es), artifact, now, w', reply)
  {
    hide Run, WasRevoked, ClosedFor, ExpireProfile;
    var key := ProfileKey(artifact.organizationId, artifact.name);
    RevokedExactly(es, key, artifact.digest);
    ClosedForIsExact(Run(es).sessions, key);
  }

  function Unless(profile: Option<Profile>, digest: string): Option<Profile> {
    match profile
    case None => None
    case Some(p) => if p.digest == digest then None else profile
  }

  /** A revocation always goes through: the digest is out of both places at once, and is remembered. */
  lemma RevocationIsExact(es: seq<Event>, key: ProfileKey, digest: string)
    ensures var w := Run(es);
            var (w', reply) := Step(w, Revoke(key, digest));
            && reply == Done
            && TrustsNow(w, w', key, Unless(ActiveOf(w, key), digest), Unless(LastOf(w, key), digest),
                         RevokedIn(w, key) + {digest})
  {
    hide Run, ClosedFor, ExpireProfile;
    ClosedForIsExact(Run(es).sessions, key);
  }

  /** A rollback restores the last known good profile exactly when there is one and it is in force; it
      can be done once. */
  lemma RollbackIsExact(es: seq<Event>, key: ProfileKey, now: int)
    ensures var w := Run(es);
            var (w', reply) := Step(w, Rollback(key, now));
            var last := LastOf(w, key);
            if last.Some? && last.value.effectiveAt <= now < last.value.expiresAt
            then reply == Trusted(last.value) && TrustsNow(w, w', key, last, None, RevokedIn(w, key))
            else Refuses(w, w', reply, LastKnownGoodUnavailable)
  {
    hide Run, ClosedFor, ExpireProfile, Sound;
    RunKeeps(es);
    SoundTrust(Run(es), key);
    ClosedForIsExact(Run(es).sessions, key);
  }

  /** Asking for the active profile shows it exactly while it is in force. */
  lemma QueryIsExact(es: seq<Event>, key: ProfileKey, now: int)
    ensures var w := Run(es);
            var (w', reply) := Step(w, Query(key, now));
            if Serves(w, key, now) then w' == w && reply == Trusted(ActiveOf(w, key).value)
            else RefusesProfile(w, w.sessions, key, now, w', reply)
  {
    hide Run, Sound, ClosedFor, ExpireProfile, ActiveIn, StateOf;
    RunKeeps(es);
    ActiveIsExact(Run(es), key, now);
    ClosedForIsExact(Run(es).sessions, key);
  }
}
