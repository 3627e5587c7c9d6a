/** What the operations on tenant-keyed streaming sessions compute: numbered steps, idle expiry,
    pruning and a capacity bound. */
module Streams {
  import opened Results
  import T = TrustStates

  datatype Stage = Input | Output | Runtime | Streaming

  datatype Version = Version(major: nat, minor: nat, patch: nat)

  datatype ProfileContent = ProfileContent(version: Version, stage: Stage)

  type Profile = T.Artifact<ProfileContent>

  /** Content is the byte encoding of the text; a hasher is the bytes it has consumed. */
  type Bytes = seq<bv8>

  datatype StreamState = Open | Terminated | Finished | Expired

  datatype Verdict = Allow | Deny | Redact | Quarantine | ErrorFailClosed | ErrorFailOpen

  datatype StreamDenial =
    | StreamProfileRequired | StreamCapacityExceeded | StreamRequestMalformed | StreamNotFound
    | StreamExpired | StreamTerminated | StreamFinished | StreamProfileChanged | StreamSequenceInvalid

  datatype StreamKey = StreamKey(organizationId: string, streamId: string)

  /** The field values of a session. */
  datatype SessionView = SessionView(
    organizationId: string, profileId: string, profileDigest: string, state: StreamState, nextSequence: int,
    lastSeen: int, bufferedBytes: nat, consumed: Bytes, closedAt: Option<int>)

  type Sessions = map<StreamKey, SessionView>

  /** What a step reports: the verdict, the session afterwards, and the content so far. */
  datatype Evaluation = Evaluation(verdict: Verdict, session: SessionView, content: Bytes, contentBytes: nat)

  const CAPACITY: nat := 128

  const IDLE_TTL: nat := 60

  function Closed(s: SessionView, at: int): SessionView {
    s.(state := Expired, bufferedBytes := 0, consumed := [], closedAt := Some(at))
  }

  function Idled(s: SessionView, now: int): SessionView {
    if s.state == Open && now - s.lastSeen >= IDLE_TTL then Closed(s, now) else s
  }

  predicate Stale(s: SessionView, now: int) {
    s.closedAt.Some? && now - s.closedAt.value >= IDLE_TTL * 2
  }

  function ExpireAndPrune(m: Sessions, now: int): Sessions {
    map k | k in m && !Stale(Idled(m[k], now), now) :: Idled(m[k], now)
  }

  function ProfileExpired(s: SessionView, organizationId: string, profileId: string): SessionView {
    if s.organizationId == organizationId && s.profileId == profileId && s.state == Open
    then Closed(s, s.lastSeen) else s
  }

  function ExpireProfile(m: Sessions, organizationId: string, profileId: string): Sessions {
    map k | k in m :: ProfileExpired(m[k], organizationId, profileId)
  }

  function OpenStreams(m: Sessions, organizationId: string): set<StreamKey> {
    set k | k in m && m[k].organizationId == organizationId && m[k].state == Open
  }

  predicate IsStreamId(id: string) {
    "stream." <= id
  }

  /** `_lookup`: what the caller learns, and the sessions afterwards. */
  function Find(m: Sessions, key: StreamKey, now: int): (r: (Sessions, Result<SessionView, StreamDenial>))
    ensures r.1.Ok? ==> key in r.0 && r.1.value == r.0[key] && r.0[key].state == Open
  {
    if !IsStreamId(key.streamId) then (m, Err(StreamNotFound))
    else
      var pruned := ExpireAndPrune(m, now);
      (pruned,
       if key !in pruned then Err(StreamNotFound)
       else
         match pruned[key].state
         case Expired => Err(StreamExpired)
         case Terminated => Err(StreamTerminated)
         case Finished => Err(StreamFinished)
         case Open => Ok(pruned[key]))
  }

  function NewSession(organizationId: string, profile: Profile, now: int): SessionView {
    SessionView(organizationId, profile.name, profile.digest, Open, 1, now, 0, [], None)
  }

  function Create(m: Sessions, key: StreamKey, profile: Profile, now: int)
    : (Sessions, Result<SessionView, StreamDenial>)
  {
    if profile.organizationId != key.organizationId || profile.content.stage != Streaming
    then (m, Err(StreamProfileRequired))
    else
      var pruned := ExpireAndPrune(m, now);
      if |OpenStreams(pruned, key.organizationId)| >= CAPACITY then (pruned, Err(StreamCapacityExceeded))
      else
        var session := NewSession(key.organizationId, profile, now);
        (pruned[key := session], Ok(session))
  }

  predicate Stops(verdict: Verdict) {
    verdict == Deny || verdict == Quarantine || verdict == ErrorFailClosed
  }

  function Pushed(s: SessionView, content: Bytes, verdict: Verdict, now: int): SessionView {
    var advanced := s.(nextSequence := s.nextSequence + 1, lastSeen := now);
    if Stops(verdict) then advanced.(state := Terminated, closedAt := Some(now), bufferedBytes := 0, consumed := [])
    else advanced.(bufferedBytes := s.bufferedBytes + |content|, consumed := s.consumed + content)
  }

  /** A push whose answer from the detectors is `verdict`. */
  function Push(m: Sessions, key: StreamKey, sequence: int, content: Bytes, expected: string, verdict: Verdict,
                now: int)
    : (Sessions, Result<Evaluation, StreamDenial>)
  {
    if sequence < 1 || content == [] then (m, Err(StreamRequestMalformed))
    else
      var (looked, found) := Find(m, key, now);
      match found
      case Err(code) => (looked, Err(code))
      case Ok(s) =>
        if s.profileDigest != expected then (looked, Err(StreamProfileChanged))
        else if sequence != s.nextSequence then (looked, Err(StreamSequenceInvalid))
        else
          var s' := Pushed(s, content, verdict, now);
          (looked[key := s'], Ok(Evaluation(verdict, s', s.consumed + content, s.bufferedBytes + |content|)))
  }

  function Ended(s: SessionView, now: int): SessionView {
    s.(nextSequence := s.nextSequence + 1, lastSeen := now, closedAt := Some(now), state := Finished,
       bufferedBytes := 0, consumed := [])
  }

  function Finish(m: Sessions, key: StreamKey, sequence: int, expected: string, verdict: Verdict, now: int)
    : (Sessions, Result<Evaluation, StreamDenial>)
  {
    if sequence < 1 then (m, Err(StreamRequestMalformed))
    else
      var (looked, found) := Find(m, key, now);
      match found
      case Err(code) => (looked, Err(code))
      case Ok(s) =>
        if s.profileDigest != expected then (looked, Err(StreamProfileChanged))
        else if sequence != s.nextSequence then (looked, Err(StreamSequenceInvalid))
        else (looked[key := Ended(s, now)], Ok(Evaluation(verdict, Ended(s, now), s.consumed, s.bufferedBytes)))
  }
}
