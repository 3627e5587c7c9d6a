/** What becomes of an evaluation whose record is, or is not, committed. */
module GuardrailRecords {
  import opened Results
  import opened TrustStates
  import opened Streams
  import opened ProfileManagers
  import opened GuardrailSteps
  import opened GuardrailTheorems

  /* ---------- Handed out means recorded ---------- */

  /** The evaluations that were handed out. */
  function Delivered(es: seq<Event>): seq<Evaluation> {
    if es == [] then []
    else
      var reply := Step(Run(es[..|es| - 1]), es[|es| - 1]).1;
      var earlier := Delivered(es[..|es| - 1]);
      if reply.Evaluated? then earlier + [reply.evaluation] else earlier
  }

  /** A call that gets no evaluation out of the registry is refused for another reason. */
  lemma RefusalIsNoEvaluation(w: World, e: Event)
    requires (e.PushStream? || e.FinishStream?) && Outcome(w, e).1.Err?
    ensures !Outcome(w, e).1.code.Evaluated? && Outcome(w, e).1.code != AuditCommitFailed
  {
  }

  lemma RecordOfStep(w: World, e: Event)
    ensures var (w', reply) := Step(w, e);
            w'.records == if reply.Evaluated? then w.records + [reply.evaluation] else w.records
  {
    hide Outcome, Create, SessionsAfterActive;
    if (e.PushStream? || e.FinishStream?) && Outcome(w, e).1.Err? {
      RefusalIsNoEvaluation(w, e);
    }
  }

  /** The evaluations handed out in a run are exactly the records, in order. */
  lemma {:induction false} DeliveredIsRecorded(es: seq<Event>)
    ensures Run(es).records == Delivered(es)
  {
    hide Step;
    if es != [] {
      DeliveredIsRecorded(es[..|es| - 1]);
      RecordOfStep(Run(es[..|es| - 1]), es[|es| - 1]);
    }
  }

  /* ---------- A push is spent before it is recorded ---------- */

  lemma ChunksAppended(es: seq<Event>, e: Event, k: StreamKey)
    ensures Chunks(es + [e], k) ==
            if Creates(Run(es), e, k) then []
            else if Pushes(Run(es), e, k) then Chunks(es, k) + [e.content]
            else Chunks(es, k)
  {
    assert (es + [e])[..|es|] == es;
  }

  /** The stream is open and not idle for a minute, its profile is in force, and the number is the
      next one. */
  predicate InTurn(es: seq<Event>, e: Event)
    requires e.PushStream? || e.FinishStream?
  {
    var w := Run(es);
    && IsStreamId(e.stream.streamId)
    && IsOpen(w, e.stream)
    && LastStep(es, e.stream).Some?
    && e.now - LastStep(es, e.stream).value < IDLE_TTL
    && ActiveIn(StateOf(w.profiles, ProfileKey(e.stream.organizationId, w.sessions[e.stream].profileId)), e.now).Ok?
    && e.sequence == |Chunks(es, e.stream)| + 1
  }

  /** Sessions may go or close, but none is renumbered. */
  ghost predicate SameNumbers(m: Sessions, m': Sessions) {
    forall k | k in m' :: k in m && m'[k].nextSequence == m[k].nextSequence
  }

  lemma FindKeepsNumbers(m: Sessions, key: StreamKey, now: int)
    ensures SameNumbers(m, Find(m, key, now).0)
  {
  }

  lemma AdmitKeepsNumbers(w: World, stream: StreamKey, now: int)
    ensures SameNumbers(w.sessions, Admit(w, stream, now).0)
  {
    hide Find;
    FindKeepsNumbers(w.sessions, stream, now);
  }

  /** A call that is refused by the registry, or before it, renumbers no session. */
  lemma RefusalKeepsNumbers(w: World, e: Event)
    requires (e.PushStream? || e.FinishStream?) && Outcome(w, e).1.Err?
    ensures SameNumbers(w.sessions, Step(w, e).0.sessions)
  {
    hide Admit, Find;
    AdmitKeepsNumbers(w, e.stream, e.now);
    FindKeepsNumbers(Admit(w, e.stream, e.now).0, e.stream, e.now);
  }

  /** A call that is accepted leaves its own session as it reports it, one number further. */
  lemma AcceptanceMoves(w: World, e: Event)
    requires Sound(w) && (e.PushStream? || e.FinishStream?) && Outcome(w, e).1.Ok?
    ensures e.stream in w.sessions && e.stream in Step(w, e).0.sessions
    ensures var s' := Step(w, e).0.sessions[e.stream];
            && s' == Outcome(w, e).1.value.session
            && s'.nextSequence == w.sessions[e.stream].nextSequence + 1
            && s'.state == (if e.FinishStream? then Finished else if Stops(e.verdict) then Terminated else Open)
  {
    hide Sound, Admit, Find;
    AcceptedOnOpen(w, e, Outcome(w, e).1.value);
    AdmittedIsPinned(w, e.stream, e.now);
  }

  lemma AcceptedInTurn(es: seq<Event>, e: Event)
    requires e.PushStream? || e.FinishStream?
    ensures Outcome(Run(es), e).1.Ok? <==> (e.PushStream? ==> e.content != []) && InTurn(es, e)
  {
    hide Run, Outcome, Chunks, LastStep, StateOf, ActiveIn;
    if e.PushStream? {
      PushIsAcceptedExactly(es, e);
    } else {
      FinishIsAcceptedExactly(es, e);
    }
  }

  /** The session of the call has moved to another number, and yet no evaluation was handed out. */
  ghost predicate TakenWithoutAnswer(w: World, e: Event)
    requires e.PushStream? || e.FinishStream?
  {
    var (w', reply) := Step(w, e);
    && !reply.Evaluated?
    && e.stream in w.sessions
    && e.stream in w'.sessions
    && w'.sessions[e.stream].nextSequence != w.sessions[e.stream].nextSequence
  }

  /** One would expect that a push or a finish which is not answered with an evaluation has left its
      stream where it was. That fails exactly when the store fails on a call that is in turn and,
      for a push, has content: the stream then has advanced, or ended, all the same. */
  lemma TakenWithoutAnswerExactly(es: seq<Event>, e: Event)
    requires e.PushStream? || e.FinishStream?
    ensures TakenWithoutAnswer(Run(es), e) <==>
            e.storeFails && (e.PushStream? ==> e.content != []) && InTurn(es, e)
    ensures TakenWithoutAnswer(Run(es), e) ==>
              && Step(Run(es), e).1 == AuditCommitFailed
              && Step(Run(es), e).0.records == Run(es).records
              && Step(Run(es), e).0.sessions[e.stream].state ==
                 (if e.FinishStream? then Finished else if Stops(e.verdict) then Terminated else Open)
  {
    hide Run, Outcome, InTurn, Sound;
    var w := Run(es);
    RunKeeps(es);
    AcceptedInTurn(es, e);
    if Outcome(w, e).1.Ok? {
      AcceptanceMoves(w, e);
    } else {
      RefusalIsNoEvaluation(w, e);
      RefusalKeepsNumbers(w, e);
    }
  }

  lemma {:induction false} ChunksGrow(es: seq<Event>, more: seq<Event>, k: StreamKey)
    requires forall e | e in more && e.CreateStream? :: StreamKey(e.organizationId, e.id) != k
    ensures |Chunks(es, k)| <= |Chunks(es + more, k)|
  {
    hide Run, Outcome;
    if more == [] {
      assert es + more == es;
    } else {
      var init, last := more[..|more| - 1], more[|more| - 1];
      assert last in more && es + more == (es + init) + [last];
      ChunksGrow(es, init, k);
      ChunksAppended(es + init, last, k);
    }
  }

  /** Once a push has been accepted, its number is gone for good, whether or not the caller got an
      answer: no push with that number or a smaller one is accepted on the stream again, as long as
      its identifier is not drawn again. */
  lemma NumbersAreNeverReused(es: seq<Event>, e: Event, more: seq<Event>, again: Event)
    requires e.PushStream? && Outcome(Run(es), e).1.Ok?
    requires forall x | x in more && x.CreateStream? :: StreamKey(x.organizationId, x.id) != e.stream
    requires again.PushStream? && again.stream == e.stream && again.sequence <= e.sequence
    ensures Outcome(Run(es + [e] + more), again).1.Err?
  {
    hide Run, Outcome, Chunks;
    PushesAreNumbered(es, e);
    ChunksAppended(es, e, e.stream);
    ChunksGrow(es + [e], more, e.stream);
    PushIsAcceptedExactly(es + [e] + more, again);
  }

  /** Once a finish has been accepted, answered or not, its stream is over: no push and no finish is
      accepted on it again, as long as its identifier is not drawn again, so a report that was lost
      stays lost. */
  lemma FinishIsFinal(es: seq<Event>, e: Event, more: seq<Event>, again: Event)
    requires e.FinishStream? && Outcome(Run(es), e).1.Ok?
    requires forall x | x in more && x.CreateStream? :: StreamKey(x.organizationId, x.id) != e.stream
    requires (again.PushStream? || again.FinishStream?) && again.stream == e.stream
    ensures Outcome(Run(es + [e] + more), again).1.Err?
  {
    hide Run, Outcome, Sound, Step;
    RunKeeps(es);
    AcceptanceMoves(Run(es), e);
    RunAppended(es, e);
    ClosedStaysClosed(es + [e], more, e.stream);
  }

  /* ---------- A run in which an answer is lost ---------- */

  lemma RunAppended(es: seq<Event>, e: Event)
    ensures Run(es + [e]) == Step(Run(es), e).0
  {
    assert (es + [e])[..|es|] == es;
  }

  /** A newly created stream takes its first push. */
  lemma FirstPushIsAccepted(es: seq<Event>, create: Event, profile: Profile, push: Event)
    requires push.PushStream? && create.CreateStream? && Creates(Run(es), create, push.stream) && IsStreamId(create.id)
    requires push.content != [] && push.sequence == 1 && push.now == create.now
    requires ActiveIn(StateOf(Run(es).profiles, ProfileKey(create.organizationId, create.profileId)), create.now) ==
             Ok(profile)
    ensures Outcome(Run(es + [create]), push).1.Ok?
  {
    hide Outcome, Chunks, LastStep, ActiveIn, StateOf, Sound;
    RunKeeps(es);
    var w := Run(es);
    RunAppended(es, create);
    CreatedIsOpen(w, create, profile);
    ActiveIsOwn(w.profiles, ProfileKey(create.organizationId, create.profileId), create.now) by {
      assert Sound(w);
      CoherentRun(w);
    }
    assert (es + [create])[..|es|] == es;
    ChunksAppended(es, create, push.stream);
    LastStepOfCreate(es, create, push.stream);
    PushIsAcceptedExactly(es + [create], push);
  }

  lemma CoherentRun(w: World)
    requires Sound(w)
    ensures Coherent(w.profiles)
  {
  }

  lemma LastStepOfCreate(es: seq<Event>, e: Event, k: StreamKey)
    requires Creates(Run(es), e, k)
    ensures LastStep(es + [e], k) == Some(e.now)
  {
    assert (es + [e])[..|es|] == es;
  }

  lemma CreatedIsOpen(w: World, e: Event, profile: Profile)
    requires e.CreateStream? && Step(w, e).1.Created?
    requires ActiveIn(StateOf(w.profiles, ProfileKey(e.organizationId, e.profileId)), e.now) == Ok(profile)
    ensures var w' := Step(w, e).0;
            && IsOpen(w', StreamKey(e.organizationId, e.id))
            && w'.sessions[StreamKey(e.organizationId, e.id)].profileId == profile.name
            && w'.profiles == w.profiles
  {
    hide ActiveIn, StateOf;
  }

  /** A case of it: a stream's first chunk is taken and judged, the record fails, the caller is
      refused, and sending the chunk again is refused as out of sequence. */
  lemma AnswerIsLost() returns (es: seq<Event>, e: Event, again: Event)
    ensures e.PushStream? && e.storeFails
    ensures again == PushStream(e.stream, e.sequence, e.content, e.verdict, e.now, false)
    ensures Step(Run(es), e).1 == AuditCommitFailed
    ensures Chunks(es + [e], e.stream) == Chunks(es, e.stream) + [e.content]
    ensures Outcome(Run(es + [e]), again).1.Err?
  {
    var profile: Profile := Artifact("o", "p", "d", ProfileContent(Version(1, 0, 0), Streaming), 0, 100, None);
    var activate, create := Activate(profile, 0), CreateStream("o", "p", "stream.1", 0);
    var key := StreamKey("o", "stream.1");
    e := PushStream(key, 1, [0], Allow, 0, true);
    again := PushStream(key, 1, [0], Allow, 0, false);
    es := [activate] + [create];
    FirstIsCreated(profile, activate, create);
    FirstPushIsAccepted([activate], create, profile, e);
    ChunksAppended(es, e, key);
    NumbersAreNeverReused(es, e, [], again);
    assert es + [e] + [] == es + [e];
  }

  lemma FirstIsCreated(profile: Profile, activate: Event, create: Event)
    requires profile == Artifact("o", "p", "d", ProfileContent(Version(1, 0, 0), Streaming), 0, 100, None)
    requires activate == Activate(profile, 0) && create == CreateStream("o", "p", "stream.1", 0)
    ensures Creates(Run([activate]), create, StreamKey("o", "stream.1"))
    ensures ActiveIn(StateOf(Run([activate]).profiles, ProfileKey("o", "p")), 0) == Ok(profile)
  {
    RunAppended([], activate);
    assert [] + [activate] == [activate];
    var w := Step(START, activate).0;
    assert w.sessions == map[];
    assert OpenStreams(map[], "o") == {};
  }
}
