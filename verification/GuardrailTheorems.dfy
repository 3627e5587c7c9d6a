/** What runs of profile changes and streaming calls guarantee. */
module GuardrailTheorems {
  import opened Results
  import opened TrustStates
  import opened Streams
  import opened ProfileManagers
  import opened GuardrailSteps

  /* ---------- The invariant ---------- */

  /** An open session carries the digest that is active for its tenant and profile. */
  ghost predicate PinnedTo(profiles: Profiles, k: StreamKey, s: SessionView) {
    s.state == Open ==>
      var active := StateOf(profiles, ProfileKey(k.organizationId, s.profileId)).active;
      active.Some? && active.value.digest == s.profileDigest
  }

  ghost predicate SessionOk(k: StreamKey, s: SessionView) {
    && s.organizationId == k.organizationId
    && s.bufferedBytes == |s.consumed|
    && (s.state != Open ==> s.consumed == [])
    && (s.state == Open ==> s.closedAt.None? && 1 <= s.nextSequence)
  }

  ghost predicate SessionsOk(profiles: Profiles, m: Sessions) {
    forall k | k in m :: SessionOk(k, m[k]) && PinnedTo(profiles, k, m[k])
  }

  ghost predicate WithinCapacity(m: Sessions) {
    forall o :: |OpenStreams(m, o)| <= CAPACITY
  }

  ghost predicate Sound(w: World) {
    && Coherent(w.profiles)
    && SessionsOk(w.profiles, w.sessions)
    && WithinCapacity(w.sessions)
  }

  lemma FewerStreams(m: Sessions, m': Sessions, o: string)
    requires OpenStreams(m', o) <= OpenStreams(m, o)
    ensures |OpenStreams(m', o)| <= |OpenStreams(m, o)|
  {
    SubsetCount(OpenStreams(m', o), OpenStreams(m, o));
  }

  /** Sessions that only close or go leave the invariant alone. */
  ghost predicate OnlyCloses(m: Sessions, m': Sessions) {
    forall k | k in m' ::
      && k in m
      && (m'[k] == m[k] || (m'[k].state != Open && SessionOk(k, m'[k])))
  }

  lemma ClosingKeeps(profiles: Profiles, m: Sessions, m': Sessions)
    requires SessionsOk(profiles, m) && WithinCapacity(m) && OnlyCloses(m, m')
    ensures SessionsOk(profiles, m') && WithinCapacity(m')
  {
    forall o ensures |OpenStreams(m', o)| <= CAPACITY {
      FewerStreams(m, m', o);
    }
  }

  lemma ExpiryOnlyCloses(profiles: Profiles, m: Sessions, now: int)
    requires SessionsOk(profiles, m)
    ensures OnlyCloses(m, ExpireAndPrune(m, now))
  {
  }

  lemma CallbackOnlyCloses(profiles: Profiles, m: Sessions, organizationId: string, profileId: string)
    requires SessionsOk(profiles, m)
    ensures OnlyCloses(m, ExpireProfile(m, organizationId, profileId))
  {
  }

  lemma FindKeeps(profiles: Profiles, m: Sessions, key: StreamKey, now: int)
    requires SessionsOk(profiles, m) && WithinCapacity(m)
    ensures SessionsOk(profiles, Find(m, key, now).0) && WithinCapacity(Find(m, key, now).0)
  {
    hide SessionsOk, WithinCapacity;
    ExpiryOnlyCloses(profiles, m, now);
    ClosingKeeps(profiles, m, ExpireAndPrune(m, now));
  }

  lemma ActiveKeeps(profiles: Profiles, m: Sessions, key: ProfileKey, now: int)
    requires SessionsOk(profiles, m) && WithinCapacity(m)
    ensures SessionsOk(profiles, SessionsAfterActive(m, profiles, key, now)) &&
            WithinCapacity(SessionsAfterActive(m, profiles, key, now))
  {
    hide SessionsOk, WithinCapacity;
    CallbackOnlyCloses(profiles, m, key.organizationId, key.profileId);
    ClosingKeeps(profiles, m, ExpireProfile(m, key.organizationId, key.profileId));
  }

  /** After the callback no stream of the profile is open, so its trust state may change. */
  lemma ReplacedKeeps(w: World, key: ProfileKey, state: TrustState<ProfileContent>)
    requires Sound(w) && CoherentFor(key, state)
    ensures Sound(Replaced(w, key, state))
  {
    var m' := ExpireProfile(w.sessions, key.organizationId, key.profileId);
    CallbackOnlyCloses(w.profiles, w.sessions, key.organizationId, key.profileId);
    ClosingKeeps(w.profiles, w.sessions, m');
    forall k | k in m' ensures PinnedTo(w.profiles[key := state], k, m'[k]) {
      assert PinnedTo(w.profiles, k, m'[k]);
    }
  }

  /** One more open stream, which the capacity check has made room for. */
  lemma OpeningKeeps(profiles: Profiles, m: Sessions, key: StreamKey, s: SessionView)
    requires SessionsOk(profiles, m) && WithinCapacity(m) && |OpenStreams(m, key.organizationId)| < CAPACITY
    requires SessionOk(key, s) && PinnedTo(profiles, key, s)
    ensures SessionsOk(profiles, m[key := s]) && WithinCapacity(m[key := s])
  {
    hide PinnedTo;
    var m' := m[key := s];
    forall o ensures |OpenStreams(m', o)| <= CAPACITY {
      if o == key.organizationId {
        assert OpenStreams(m', o) <= OpenStreams(m, o) + {key};
        SubsetCount(OpenStreams(m', o), OpenStreams(m, o) + {key});
      } else {
        FewerStreams(m, m', o);
      }
    }
  }

  lemma SubsetCount(a: set<StreamKey>, b: set<StreamKey>)
    requires a <= b
    ensures |a| <= |b|
  {
    assert b == a + (b - a);
  }

  lemma CreateKeeps(profiles: Profiles, m: Sessions, key: StreamKey, profile: Profile, now: int)
    requires SessionsOk(profiles, m) && WithinCapacity(m)
    requires StateOf(profiles, ProfileKey(key.organizationId, profile.name)).active == Some(profile)
    ensures SessionsOk(profiles, Create(m, key, profile, now).0) && WithinCapacity(Create(m, key, profile, now).0)
  {
    hide SessionsOk, WithinCapacity, ExpireAndPrune, OpenStreams;
    var pruned := ExpireAndPrune(m, now);
    ExpiryOnlyCloses(profiles, m, now);
    ClosingKeeps(profiles, m, pruned);
    if Create(m, key, profile, now).1.Ok? {
      OpeningKeeps(profiles, pruned, key, NewSession(key.organizationId, profile, now));
    }
  }

  /** Replacing an open session by one that follows it on the same stream. */
  lemma AdvanceKeeps(profiles: Profiles, m: Sessions, key: StreamKey, s': SessionView)
    requires SessionsOk(profiles, m) && WithinCapacity(m) && key in m && m[key].state == Open
    requires SessionOk(key, s') && s'.profileId == m[key].profileId && s'.profileDigest == m[key].profileDigest
    ensures SessionsOk(profiles, m[key := s']) && WithinCapacity(m[key := s'])
  {
    var m' := m[key := s'];
    forall o ensures |OpenStreams(m', o)| <= CAPACITY {
      FewerStreams(m, m', o);
    }
    assert PinnedTo(profiles, key, m[key]);
  }

  lemma PushKeeps(profiles: Profiles, m: Sessions, key: StreamKey, sequence: int, content: Bytes, expected: string,
                  verdict: Streams.Verdict, now: int)
    requires SessionsOk(profiles, m) && WithinCapacity(m)
    ensures SessionsOk(profiles, Push(m, key, sequence, content, expected, verdict, now).0)
    ensures WithinCapacity(Push(m, key, sequence, content, expected, verdict, now).0)
  {
    hide SessionsOk, WithinCapacity, Find;
    FindKeeps(profiles, m, key, now);
    var (looked, found) := Find(m, key, now);
    if found.Ok? && Push(m, key, sequence, content, expected, verdict, now).1.Ok? {
      FoundIsOk(profiles, looked, key);
      AdvanceKeeps(profiles, looked, key, Pushed(found.value, content, verdict, now));
    }
  }

  lemma FoundIsOk(profiles: Profiles, m: Sessions, key: StreamKey)
    requires SessionsOk(profiles, m) && key in m
    ensures SessionOk(key, m[key]) && PinnedTo(profiles, key, m[key])
  {
  }

  lemma FinishKeeps(profiles: Profiles, m: Sessions, key: StreamKey, sequence: int, expected: string,
                    verdict: Streams.Verdict, now: int)
    requires SessionsOk(profiles, m) && WithinCapacity(m)
    ensures SessionsOk(profiles, Finish(m, key, sequence, expected, verdict, now).0)
    ensures WithinCapacity(Finish(m, key, sequence, expected, verdict, now).0)
  {
    hide SessionsOk, WithinCapacity, Find;
    FindKeeps(profiles, m, key, now);
    var (looked, found) := Find(m, key, now);
    if found.Ok? && Finish(m, key, sequence, expected, verdict, now).1.Ok? {
      FoundIsOk(profiles, looked, key);
      AdvanceKeeps(profiles, looked, key, Ended(found.value, now));
    }
  }

  lemma AdmitKeeps(w: World, stream: StreamKey, now: int)
    requires Sound(w)
    ensures SessionsOk(w.profiles, Admit(w, stream, now).0) && WithinCapacity(Admit(w, stream, now).0)
  {
    hide SessionsOk, WithinCapacity, Find, SessionsAfterActive;
    FindKeeps(w.profiles, w.sessions, stream, now);
    var (looked, found) := Find(w.sessions, stream, now);
    if found.Ok? {
      ActiveKeeps(w.profiles, looked, ProfileKey(stream.organizationId, found.value.profileId), now);
    }
  }

  lemma StreamStepKeeps(w: World, e: Event)
    requires Sound(w) && (e.PushStream? || e.FinishStream?)
    ensures Sound(StreamStep(w, e).0)
  {
    hide Coherent, SessionsOk, WithinCapacity, Admit, Push, Finish;
    AdmitKeeps(w, e.stream, e.now);
    var (m, admitted) := Admit(w, e.stream, e.now);
    if admitted.Ok? {
      match e
      case PushStream(stream, sequence, content, verdict, now, _) =>
        PushKeeps(w.profiles, m, stream, sequence, content, admitted.value.digest, verdict, now);
      case FinishStream(stream, sequence, verdict, now, _) =>
        FinishKeeps(w.profiles, m, stream, sequence, admitted.value.digest, verdict, now);
    }
  }

  lemma ActiveIsOwn(profiles: Profiles, key: ProfileKey, now: int)
    requires Coherent(profiles) && ActiveIn(StateOf(profiles, key), now).Ok?
    ensures var profile := ActiveIn(StateOf(profiles, key), now).value;
            && profile.organizationId == key.organizationId && profile.name == key.profileId
            && StateOf(profiles, key).active == Some(profile)
  {
    assert CoherentFor(key, profiles[key]);
  }

  lemma CreateStepKeeps(w: World, organizationId: string, profileId: string, id: string, now: int)
    requires Sound(w)
    ensures Sound(CreateStep(w, organizationId, profileId, id, now).0)
  {
    hide Coherent, SessionsOk, WithinCapacity, Create, ActiveIn, StateOf;
    var key := ProfileKey(organizationId, profileId);
    ActiveKeeps(w.profiles, w.sessions, key, now);
    if ActiveIn(StateOf(w.profiles, key), now).Ok? {
      ActiveIsOwn(w.profiles, key, now);
      CreateKeeps(w.profiles, SessionsAfterActive(w.sessions, w.profiles, key, now), StreamKey(organizationId, id),
                  ActiveIn(StateOf(w.profiles, key), now).value, now);
    }
  }

  lemma TrustStays(profiles: Profiles, key: ProfileKey)
    requires Coherent(profiles)
    ensures CoherentFor(key, StateOf(profiles, key))
  {
  }

  lemma StepKeeps(w: World, e: Event)
    requires Sound(w)
    ensures Sound(Step(w, e).0)
  {
    hide Sound, CreateStep, StreamStep, Replaced, SessionsAfterActive;
    match e
    case Activate(artifact, now) =>
      var key := ProfileKey(artifact.organizationId, artifact.name);
      SoundTrust(w, key);
      if InForce(artifact, now, TimeInvalid).Ok? && AfterActivate(StateOf(w.profiles, key), artifact).Ok? {
        ReplacedKeeps(w, key, AfterActivate(StateOf(w.profiles, key), artifact).value);
      }
    case Revoke(key, digest) =>
      SoundTrust(w, key);
      ReplacedKeeps(w, key, AfterRevoke(StateOf(w.profiles, key), digest));
    case Rollback(key, now) =>
      SoundTrust(w, key);
      if AfterRollback(StateOf(w.profiles, key), now).Ok? {
        ReplacedKeeps(w, key, AfterRollback(StateOf(w.profiles, key), now).value);
      }
    case Query(key, now) => QueryKeeps(w, key, now);
    case CreateStream(organizationId, profileId, id, now) => CreateStepKeeps(w, organizationId, profileId, id, now);
    case PushStream(_, _, _, _, _, _) => StreamStepKeeps(w, e);
    case FinishStream(_, _, _, _, _) => StreamStepKeeps(w, e);
  }

  lemma SoundTrust(w: World, key: ProfileKey)
    requires Sound(w)
    ensures CoherentFor(key, StateOf(w.profiles, key))
  {
    TrustStays(w.profiles, key);
  }

  lemma QueryKeeps(w: World, key: ProfileKey, now: int)
    requires Sound(w)
    ensures Sound(w.(sessions := SessionsAfterActive(w.sessions, w.profiles, key, now)))
  {
    ActiveKeeps(w.profiles, w.sessions, key, now);
  }

  lemma {:induction false} RunKeeps(es: seq<Event>)
    ensures Sound(Run(es))
  {
    if es == [] {
      NothingOpen();
    } else {
      hide Sound, Step;
      RunKeeps(es[..|es| - 1]);
      StepKeeps(Run(es[..|es| - 1]), es[|es| - 1]);
    }
  }

  lemma NothingOpen()
    ensures Sound(START)
  {
    forall o ensures OpenStreams(map[], o) == {} {
    }
  }

  /* ---------- Trust and capacity ---------- */

  /** In every run nothing trusted is revoked, an active profile names the last known good one as
      its predecessor with a strictly later version, every open session carries the digest that is
      active for its tenant and profile, no tenant has more than 128 open streams, and sessions
      that are not open hold no content. */
  lemma StreamsArePinned(es: seq<Event>)
    ensures var w := Run(es);
            && Coherent(w.profiles)
            && (forall k | k in w.sessions :: SessionOk(k, w.sessions[k]) && PinnedTo(w.profiles, k, w.sessions[k]))
            && (forall o :: |OpenStreams(w.sessions, o)| <= CAPACITY)
  {
    RunKeeps(es);
  }

  lemma RevokedGrows(w: World, e: Event, key: ProfileKey)
    ensures StateOf(w.profiles, key).revoked <= StateOf(Step(w, e).0.profiles, key).revoked
  {
    hide Outcome, CreateStep, SessionsAfterActive;
    assert e.CreateStream? ==> CreateStep(w, e.organizationId, e.profileId, e.id, e.now).0.profiles == w.profiles by {
      if e.CreateStream? {
        CreateKeepsProfiles(w, e.organizationId, e.profileId, e.id, e.now);
      }
    }
  }

  lemma CreateKeepsProfiles(w: World, organizationId: string, profileId: string, id: string, now: int)
    ensures CreateStep(w, organizationId, profileId, id, now).0.profiles == w.profiles
  {
  }

  lemma {:induction false} StaysRevoked(es: seq<Event>, i: nat)
    requires i < |es| && es[i].Revoke?
    ensures es[i].digest in StateOf(Run(es).profiles, es[i].profile).revoked
  {
    hide CreateStep, StreamStep;
    var init, last := es[..|es| - 1], es[|es| - 1];
    if i < |init| {
      StaysRevoked(init, i);
      RevokedGrows(Run(init), last, es[i].profile);
    }
  }

  /** After a revocation the digest is never active again, and no stream under it is ever open. */
  lemma RevokedIsNeverActive(es: seq<Event>, i: nat, k: StreamKey)
    requires i < |es| && es[i].Revoke?
    ensures var w := Run(es);
            && (StateOf(w.profiles, es[i].profile).active.Some? ==>
                  StateOf(w.profiles, es[i].profile).active.value.digest != es[i].digest)
            && (k in w.sessions && w.sessions[k].state == Open ==>
                  ProfileKey(k.organizationId, w.sessions[k].profileId) == es[i].profile ==>
                    w.sessions[k].profileDigest != es[i].digest)
  {
    hide Step;
    StaysRevoked(es, i);
    RunKeeps(es);
    assert CoherentFor(es[i].profile, Run(es).profiles[es[i].profile]);
  }

  /* ---------- The pinned profile ---------- */

  lemma ExpiryIsIdempotent(m: Sessions, now: int)
    ensures ExpireAndPrune(ExpireAndPrune(m, now), now) == ExpireAndPrune(m, now)
  {
  }

  /** Looking a stream up again at the same time changes nothing. */
  lemma FindAgain(m: Sessions, key: StreamKey, now: int)
    ensures Find(Find(m, key, now).0, key, now) == Find(m, key, now)
  {
    hide ExpireAndPrune;
    ExpiryIsIdempotent(m, now);
  }

  /** What an admitted call works on: the open session, and the profile it is pinned to. */
  lemma AdmittedIsPinned(w: World, stream: StreamKey, now: int)
    requires Sound(w) && Admit(w, stream, now).1.Ok?
    ensures Find(w.sessions, stream, now).1.Ok?
    ensures Admit(w, stream, now).0 == Find(w.sessions, stream, now).0
    ensures Find(Admit(w, stream, now).0, stream, now) == Find(w.sessions, stream, now)
    ensures Admit(w, stream, now).1.value.digest == Find(w.sessions, stream, now).1.value.profileDigest
  {
    hide Find, SessionsOk, WithinCapacity, Coherent;
    FindAgain(w.sessions, stream, now);
    FindKeeps(w.profiles, w.sessions, stream, now);
    FoundIsOk(w.profiles, Find(w.sessions, stream, now).0, stream);
  }

  /** The profile of an open stream never changes under it: no call is ever refused for that. */
  lemma ProfileNeverChanges(es: seq<Event>, e: Event)
    ensures Step(Run(es), e).1 != StreamRefused(StreamProfileChanged)
  {
    hide Run, Sound, Admit, Find, Replaced;
    RunKeeps(es);
    var w := Run(es);
    if e.PushStream? || e.FinishStream? {
      if Admit(w, e.stream, e.now).1.Ok? {
        AdmittedIsPinned(w, e.stream, e.now);
      }
      AdmitNeverBlamesProfile(w, e.stream, e.now);
    }
  }

  lemma AdmitNeverBlamesProfile(w: World, stream: StreamKey, now: int)
    ensures Admit(w, stream, now).1 != Err(StreamRefused(StreamProfileChanged))
  {
  }

  /* ---------- The session protocol ---------- */

  predicate Creates(w: World, e: Event, k: StreamKey) {
    e.CreateStream? && StreamKey(e.organizationId, e.id) == k && Step(w, e).1.Created?
  }

  predicate Pushes(w: World, e: Event, k: StreamKey) {
    e.PushStream? && e.stream == k && Outcome(w, e).1.Ok?
  }

  /** The chunks accepted on a stream since it was created. */
  function Chunks(es: seq<Event>, k: StreamKey): seq<Bytes> {
    if es == [] then []
    else
      var init, e := es[..|es| - 1], es[|es| - 1];
      if Creates(Run(init), e, k) then []
      else if Pushes(Run(init), e, k) then Chunks(init, k) + [e.content]
      else Chunks(init, k)
  }

  /** When the stream was created or last accepted a chunk. */
  function LastStep(es: seq<Event>, k: StreamKey): Option<int> {
    if es == [] then None
    else
      var init, e := es[..|es| - 1], es[|es| - 1];
      if Creates(Run(init), e, k) || Pushes(Run(init), e, k) then Some(e.now) else LastStep(init, k)
  }

  function Concat(chunks: seq<Bytes>): Bytes {
    if chunks == [] then [] else Concat(chunks[..|chunks| - 1]) + chunks[|chunks| - 1]
  }

  lemma ConcatAppended(chunks: seq<Bytes>, chunk: Bytes)
    ensures Concat(chunks + [chunk]) == Concat(chunks) + chunk
  {
    assert (chunks + [chunk])[..|chunks|] == chunks;
  }

  /** Where an open session comes from. */
  lemma OpenAfter(w: World, e: Event, k: StreamKey)
    requires Sound(w)
    requires k in Step(w, e).0.sessions && Step(w, e).0.sessions[k].state == Open
    ensures var s' := Step(w, e).0.sessions[k];
            if Creates(w, e, k) then s'.nextSequence == 1 && s'.consumed == [] && s'.lastSeen == e.now
            else
              && k in w.sessions && w.sessions[k].state == Open
              && s' == if Pushes(w, e, k) then Pushed(w.sessions[k], e.content, e.verdict, e.now) else w.sessions[k]
  {
    hide Sound, Run;
    if e.PushStream? || e.FinishStream? {
      OpenAfterStream(w, e, k);
    } else if e.CreateStream? {
      OpenAfterCreate(w, e, k);
    }
  }

  lemma OpenAfterCreate(w: World, e: Event, k: StreamKey)
    requires e.CreateStream?
    requires k in Step(w, e).0.sessions && Step(w, e).0.sessions[k].state == Open
    ensures var s' := Step(w, e).0.sessions[k];
            if Creates(w, e, k) then s'.nextSequence == 1 && s'.consumed == [] && s'.lastSeen == e.now
            else k in w.sessions && w.sessions[k].state == Open && s' == w.sessions[k]
  {
  }

  lemma OpenAfterFind(m: Sessions, key: StreamKey, now: int, k: StreamKey)
    ensures var looked := Find(m, key, now).0;
            k in looked && looked[k].state == Open ==> k in m && m[k] == looked[k]
  {
  }

  lemma OpenAfterAdmit(w: World, stream: StreamKey, now: int, k: StreamKey)
    ensures var m := Admit(w, stream, now).0;
            k in m && m[k].state == Open ==> k in w.sessions && w.sessions[k] == m[k]
  {
    hide Find;
    OpenAfterFind(w.sessions, stream, now, k);
  }

  lemma OpenAfterStream(w: World, e: Event, k: StreamKey)
    requires Sound(w) && (e.PushStream? || e.FinishStream?)
    requires k in Step(w, e).0.sessions && Step(w, e).0.sessions[k].state == Open
    ensures k in w.sessions && w.sessions[k].state == Open
    ensures Step(w, e).0.sessions[k] ==
            if Pushes(w, e, k) then Pushed(w.sessions[k], e.content, e.verdict, e.now) else w.sessions[k]
  {
    hide Sound, Admit, Find, ActiveIn, StateOf, OpenStreams;
    var (m, admitted) := Admit(w, e.stream, e.now);
    OpenAfterAdmit(w, e.stream, e.now, k);
    OpenAfterFind(m, e.stream, e.now, k);
  }

  ghost predicate Tracks(es: seq<Event>, k: StreamKey) {
    var m := Run(es).sessions;
    k in m && m[k].state == Open ==>
      && m[k].nextSequence == |Chunks(es, k)| + 1
      && m[k].consumed == Concat(Chunks(es, k))
      && LastStep(es, k) == Some(m[k].lastSeen)
  }

  lemma {:induction false} RunTracks(es: seq<Event>, k: StreamKey)
    ensures Tracks(es, k)
  {
    if es != [] {
      hide Sound, Step, Creates, Pushes;
      var init, e := es[..|es| - 1], es[|es| - 1];
      RunTracks(init, k);
      RunKeeps(init);
      var m := Run(es).sessions;
      if k in m && m[k].state == Open {
        OpenAfter(Run(init), e, k);
        if Pushes(Run(init), e, k) {
          ConcatAppended(Chunks(init, k), e.content);
        }
      }
    }
  }

  /** What acceptance of a step says about the session it was made on. */
  lemma AcceptedOnOpen(w: World, e: Event, v: Evaluation)
    requires Sound(w) && (e.PushStream? || e.FinishStream?) && Outcome(w, e).1 == Ok(v)
    ensures e.stream in w.sessions && w.sessions[e.stream].state == Open
    ensures var s := w.sessions[e.stream];
            && e.sequence == s.nextSequence
            && e.now - s.lastSeen < IDLE_TTL
            && v.content == (if e.PushStream? then s.consumed + e.content else s.consumed)
            && v.contentBytes == |v.content|
            && v.verdict == e.verdict
            && v.session.nextSequence == e.sequence + 1
            && v.session.state == (if e.FinishStream? then Finished else if Stops(e.verdict) then Terminated else Open)
  {
    hide Sound, Admit, Find;
    AdmittedIsPinned(w, e.stream, e.now);
    OpenIsFresh(w.sessions, e.stream, e.now);
    SoundSession(w, e.stream);
  }

  lemma SoundSession(w: World, k: StreamKey)
    requires Sound(w) && k in w.sessions
    ensures SessionOk(k, w.sessions[k])
  {
  }

  lemma OpenIsFresh(m: Sessions, key: StreamKey, now: int)
    requires Find(m, key, now).1.Ok?
    ensures key in m && m[key] == Find(m, key, now).1.value && now - m[key].lastSeen < IDLE_TTL
  {
  }

  /** The accepted sequence numbers of a stream are 1, 2, 3, ...; the k-th push reports the digest
      and the byte count of the first k chunks put together; each accepted step comes less than a
      minute after the one before; a stopping verdict ends the stream. */
  lemma PushesAreNumbered(es: seq<Event>, e: Event)
    requires e.PushStream? && Outcome(Run(es), e).1.Ok?
    ensures var v, chunks := Outcome(Run(es), e).1.value, Chunks(es, e.stream) + [e.content];
            && e.sequence == |chunks|
            && v.content == Concat(chunks)
            && v.contentBytes == |Concat(chunks)|
            && v.session.nextSequence == |chunks| + 1
            && v.session.state == (if Stops(e.verdict) then Terminated else Open)
    ensures LastStep(es, e.stream).Some? && e.now - LastStep(es, e.stream).value < IDLE_TTL
  {
    hide Sound, Step, Outcome, Run;
    RunKeeps(es);
    RunTracks(es, e.stream);
    AcceptedOnOpen(Run(es), e, Outcome(Run(es), e).1.value);
    ConcatAppended(Chunks(es, e.stream), e.content);
  }

  /** A finish takes the next number, reports everything that was pushed, and ends the stream. */
  lemma FinishReportsAll(es: seq<Event>, e: Event)
    requires e.FinishStream? && Outcome(Run(es), e).1.Ok?
    ensures var v, chunks := Outcome(Run(es), e).1.value, Chunks(es, e.stream);
            && e.sequence == |chunks| + 1
            && v.content == Concat(chunks)
            && v.contentBytes == |Concat(chunks)|
            && v.session.state == Finished
    ensures LastStep(es, e.stream).Some? && e.now - LastStep(es, e.stream).value < IDLE_TTL
  {
    hide Sound, Step, Outcome, Run;
    RunKeeps(es);
    RunTracks(es, e.stream);
    AcceptedOnOpen(Run(es), e, Outcome(Run(es), e).1.value);
  }

  predicate IsOpen(w: World, k: StreamKey) {
    k in w.sessions && w.sessions[k].state == Open
  }

  /** Exactly when a push is accepted: the stream is open and not idle for a minute, its profile is
      in force, and the number is the next one. */
  lemma PushIsAcceptedExactly(es: seq<Event>, e: Event)
    requires e.PushStream?
    ensures var w := Run(es);
            Outcome(w, e).1.Ok? <==>
              && e.content != []
              && IsStreamId(e.stream.streamId)
              && IsOpen(w, e.stream)
              && LastStep(es, e.stream).Some?
              && e.now - LastStep(es, e.stream).value < IDLE_TTL
              && ActiveIn(StateOf(w.profiles, ProfileKey(e.stream.organizationId, w.sessions[e.stream].profileId)),
                          e.now).Ok?
              && e.sequence == |Chunks(es, e.stream)| + 1
  {
    hide Sound, Step, Run, StateOf, ActiveIn;
    var w := Run(es);
    RunKeeps(es);
    RunTracks(es, e.stream);
    if Outcome(w, e).1.Ok? {
      AcceptedOnOpen(w, e, Outcome(w, e).1.value);
      AcceptedIsInForce(w, e);
    } else if IsOpen(w, e.stream) && IsStreamId(e.stream.streamId) && e.now - w.sessions[e.stream].lastSeen < IDLE_TTL {
      SoundSession(w, e.stream);
      OpenIsFound(w.sessions, e.stream, e.now);
      if Admit(w, e.stream, e.now).1.Ok? {
        AdmittedIsPinned(w, e.stream, e.now);
      }
    }
  }

  lemma OpenIsFound(m: Sessions, key: StreamKey, now: int)
    requires key in m && SessionOk(key, m[key]) && m[key].state == Open && now - m[key].lastSeen < IDLE_TTL
    requires IsStreamId(key.streamId)
    ensures Find(m, key, now).1 == Ok(m[key])
  {
  }

  lemma AcceptedIsInForce(w: World, e: Event)
    requires (e.PushStream? || e.FinishStream?) && Outcome(w, e).1.Ok?
    ensures e.PushStream? ==> e.content != []
    ensures IsStreamId(e.stream.streamId) && e.stream in w.sessions
    ensures ActiveIn(StateOf(w.profiles, ProfileKey(e.stream.organizationId, w.sessions[e.stream].profileId)),
                     e.now).Ok?
  {
    hide StateOf, ActiveIn;
    OpenIsFresh(w.sessions, e.stream, e.now);
  }

  /** A finish is accepted under the same conditions, but needs no content. */
  lemma FinishIsAcceptedExactly(es: seq<Event>, e: Event)
    requires e.FinishStream?
    ensures var w := Run(es);
            Outcome(w, e).1.Ok? <==>
              && IsStreamId(e.stream.streamId)
              && IsOpen(w, e.stream)
              && LastStep(es, e.stream).Some?
              && e.now - LastStep(es, e.stream).value < IDLE_TTL
              && ActiveIn(StateOf(w.profiles, ProfileKey(e.stream.organizationId, w.sessions[e.stream].profileId)),
                          e.now).Ok?
              && e.sequence == |Chunks(es, e.stream)| + 1
  {
    hide Sound, Step, Run, StateOf, ActiveIn;
    var w := Run(es);
    RunKeeps(es);
    RunTracks(es, e.stream);
    if Outcome(w, e).1.Ok? {
      AcceptedOnOpen(w, e, Outcome(w, e).1.value);
      AcceptedIsInForce(w, e);
    } else if IsOpen(w, e.stream) && IsStreamId(e.stream.streamId) && e.now - w.sessions[e.stream].lastSeen < IDLE_TTL {
      SoundSession(w, e.stream);
      OpenIsFound(w.sessions, e.stream, e.now);
      if Admit(w, e.stream, e.now).1.Ok? {
        AdmittedIsPinned(w, e.stream, e.now);
      }
    }
  }

  /** A stream that is not open stays so as long as its identifier is not drawn again: it accepts
      no further step, whatever happens in between. */
  lemma {:induction false} ClosedStaysClosed(es: seq<Event>, more: seq<Event>, k: StreamKey)
    requires !IsOpen(Run(es), k)
    requires forall e | e in more && e.CreateStream? :: StreamKey(e.organizationId, e.id) != k
    ensures !IsOpen(Run(es + more), k)
    ensures forall e: Event | (e.PushStream? || e.FinishStream?) && e.stream == k :: Outcome(Run(es + more), e).1.Err?
  {
    hide Sound, Step, Outcome;
    RunKeeps(es + more);
    if more == [] {
      assert es + more == es;
    } else {
      var init, last := more[..|more| - 1], more[|more| - 1];
      assert last in more && es + more == (es + init) + [last] && (es + more)[..|es + more| - 1] == es + init;
      ClosedStaysClosed(es, init, k);
      RunKeeps(es + init);
      if IsOpen(Run(es + more), k) {
        OpenAfter(Run(es + init), last, k);
      }
    }
    forall e: Event | (e.PushStream? || e.FinishStream?) && e.stream == k ensures Outcome(Run(es + more), e).1.Err? {
      if Outcome(Run(es + more), e).1.Ok? {
        AcceptedOnOpen(Run(es + more), e, Outcome(Run(es + more), e).1.value);
      }
    }
  }
}
