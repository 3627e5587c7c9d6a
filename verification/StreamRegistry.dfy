/** The registry of streaming sessions as the object it is: session objects in a dictionary, updated
    in place. Each method is proved to do what the function of the same name in `Streams` says. */
module StreamRegistries {
  import opened Results
  import opened Streams
  import S = Streams

  class Session {
    const organizationId: string
    const profileId: string
    const profileDigest: string
    var state: StreamState
    var nextSequence: int
    var lastSeen: int
    var bufferedBytes: nat
    var consumed: Bytes
    var closedAt: Option<int>

    constructor (organizationId: string, profile: Profile, now: int)
      ensures View() == NewSession(organizationId, profile, now)
    {
      this.organizationId, profileId, profileDigest := organizationId, profile.name, profile.digest;
      state, nextSequence, lastSeen := Open, 1, now;
      bufferedBytes, consumed, closedAt := 0, [], None;
    }

    function View(): SessionView
      reads this
    {
      SessionView(organizationId, profileId, profileDigest, state, nextSequence, lastSeen, bufferedBytes, consumed,
                  closedAt)
    }

    /** `_close_content` and the transition to expired. */
    method Close(at: int)
      modifies this
      ensures View() == Closed(old(View()), at)
    {
      bufferedBytes := 0;
      consumed := [];
      state := Expired;
      closedAt := Some(at);
    }

    method Push(content: Bytes, verdict: Verdict, now: int)
      modifies this
      ensures View() == Pushed(old(View()), content, verdict, now)
    {
      nextSequence := nextSequence + 1;
      lastSeen := now;
      if Stops(verdict) {
        state := Terminated;
        closedAt := Some(now);
        bufferedBytes := 0;
        consumed := [];
      } else {
        bufferedBytes := bufferedBytes + |content|;
        consumed := consumed + content;
      }
    }

    method Finish(now: int)
      modifies this
      ensures View() == Ended(old(View()), now)
    {
      nextSequence := nextSequence + 1;
      lastSeen := now;
      closedAt := Some(now);
      state := Finished;
      bufferedBytes := 0;
      consumed := [];
    }
  }

  function WithoutStale(m: Sessions, now: int): Sessions {
    map k | k in m && !Stale(m[k], now) :: m[k]
  }

  lemma PruningIsExact(before: Sessions, idled: Sessions, now: int)
    requires idled.Keys == before.Keys && forall k | k in before :: idled[k] == Idled(before[k], now)
    ensures WithoutStale(idled, now) == S.ExpireAndPrune(before, now)
  {
  }

  class StreamRegistry {
    var sessions: map<StreamKey, Session>

    ghost function Objects(): set<Session>
      reads this
    {
      set k | k in sessions :: sessions[k]
    }

    /** No two keys share a session. */
    ghost predicate Valid()
      reads this
    {
      forall j, k | j in sessions && k in sessions && j != k :: sessions[j] != sessions[k]
    }

    ghost function View(): Sessions
      reads this, Objects()
    {
      map k | k in sessions :: sessions[k].View()
    }

    constructor ()
      ensures Valid() && View() == map[] && Objects() == {}
    {
      sessions := map[];
    }

    method ExpireIdle(now: int)
      requires Valid()
      modifies Objects()
      ensures forall k | k in sessions :: sessions[k].View() == Idled(old(sessions[k].View()), now)
    {
      var pending := sessions.Keys;
      while pending != {}
        invariant pending <= sessions.Keys
        invariant forall k | k in sessions ::
                    sessions[k].View() ==
                        if k in pending then old(sessions[k].View()) else Idled(old(sessions[k].View()), now)
        decreases pending
      {
        var k :| k in pending;
        pending := pending - {k};
        var session := sessions[k];
        if session.state == Open && now - session.lastSeen >= IDLE_TTL {
          session.Close(now);
        }
      }
    }

    method ExpireAndPrune(now: int)
      requires Valid()
      modifies this, Objects()
      ensures Valid() && Objects() <= old(Objects())
      ensures View() == S.ExpireAndPrune(old(View()), now)
    {
      ghost var before := View();
      ExpireIdle(now);
      PruningIsExact(before, View(), now);
      Prune(now);
    }

    method Prune(now: int)
      requires Valid()
      modifies this
      ensures Valid() && Objects() <= old(Objects())
      ensures View() == WithoutStale(old(View()), now)
    {
      sessions := map k | k in sessions && !Stale(sessions[k].View(), now) :: sessions[k];
    }

    method ExpireProfile(organizationId: string, profileId: string)
      requires Valid()
      modifies Objects()
      ensures View() == S.ExpireProfile(old(View()), organizationId, profileId)
    {
      var pending := sessions.Keys;
      while pending != {}
        invariant pending <= sessions.Keys
        invariant forall k | k in sessions ::
                    sessions[k].View() == if k in pending then old(sessions[k].View())
                                          else ProfileExpired(old(sessions[k].View()), organizationId, profileId)
        decreases pending
      {
        var k :| k in pending;
        pending := pending - {k};
        var session := sessions[k];
        if session.organizationId == organizationId && session.profileId == profileId && session.state == Open {
          session.Close(session.lastSeen);
        }
      }
    }

    method Lookup(key: StreamKey, now: int) returns (found: Result<Session, StreamDenial>)
      requires Valid()
      modifies this, Objects()
      ensures Valid() && Objects() <= old(Objects())
      ensures var (looked, result) := Find(old(View()), key, now);
              && View() == looked
              && (match result
                  case Ok(s) => found.Ok? && key in sessions && found.value == sessions[key] && found.value.View() == s
                  case Err(code) => found == Err(code))
    {
      if !IsStreamId(key.streamId) {
        return Err(StreamNotFound);
      }
      ExpireAndPrune(now);
      if key !in sessions {
        return Err(StreamNotFound);
      }
      var session := sessions[key];
      match session.state
      case Expired => return Err(StreamExpired);
      case Terminated => return Err(StreamTerminated);
      case Finished => return Err(StreamFinished);
      case Open => return Ok(session);
    }

    /** `id` is the fresh identifier the registry draws. */
    method Create(organizationId: string, profile: Profile, id: string, now: int)
      returns (result: Result<SessionView, StreamDenial>)
      requires Valid()
      modifies this, Objects()
      ensures Valid() && fresh(Objects() - old(Objects()))
      ensures (View(), result) == S.Create(old(View()), StreamKey(organizationId, id), profile, now)
    {
      if profile.organizationId != organizationId || profile.content.stage != Streaming {
        return Err(StreamProfileRequired);
      }
      ExpireAndPrune(now);
      var open := CountOpen(organizationId);
      if open >= CAPACITY {
        return Err(StreamCapacityExceeded);
      }
      var session := new Session(organizationId, profile, now);
      Insert(StreamKey(organizationId, id), session);
      return Ok(session.View());
    }

    method CountOpen(organizationId: string) returns (n: nat)
      ensures n == |OpenStreams(View(), organizationId)|
    {
      var open := set k | k in sessions && sessions[k].organizationId == organizationId && sessions[k].state == Open;
      assert open == OpenStreams(View(), organizationId);
      return |open|;
    }

    method Insert(key: StreamKey, session: Session)
      requires Valid() && session !in Objects()
      modifies this
      ensures Valid() && Objects() <= old(Objects()) + {session}
      ensures View() == old(View())[key := session.View()]
    {
      sessions := sessions[key := session];
    }

    method Push(key: StreamKey, sequence: int, content: Bytes, expected: string, verdict: Verdict, now: int)
      returns (result: Result<Evaluation, StreamDenial>)
      requires Valid()
      modifies this, Objects()
      ensures Valid() && Objects() <= old(Objects())
      ensures (View(), result) == S.Push(old(View()), key, sequence, content, expected, verdict, now)
    {
      hide Find, Pushed;
      if sequence < 1 || content == [] {
        return Err(StreamRequestMalformed);
      }
      var found := Lookup(key, now);
      if found.Err? {
        return Err(found.code);
      }
      var session := found.value;
      if session.profileDigest != expected {
        return Err(StreamProfileChanged);
      }
      if sequence != session.nextSequence {
        return Err(StreamSequenceInvalid);
      }
      var evaluation := Advance(key, content, verdict, now);
      return Ok(evaluation);
    }

    /** An accepted push. */
    method Advance(key: StreamKey, content: Bytes, verdict: Verdict, now: int) returns (evaluation: Evaluation)
      requires Valid() && key in sessions
      modifies sessions[key]
      ensures View() == old(View())[key := Pushed(old(View())[key], content, verdict, now)]
      ensures evaluation == Evaluation(verdict, View()[key], old(View())[key].consumed + content,
                                       old(View())[key].bufferedBytes + |content|)
    {
      hide Pushed;
      ghost var before := View();
      var session := sessions[key];
      assert before[key] == session.View();
      var consumed, bytes := session.consumed + content, session.bufferedBytes + |content|;
      session.Push(content, verdict, now);
      assert View() == before[key := Pushed(before[key], content, verdict, now)] by {
        assert forall k | k in sessions && k != key :: sessions[k] != session;
      }
      return Evaluation(verdict, session.View(), consumed, bytes);
    }

    method Finish(key: StreamKey, sequence: int, expected: string, verdict: Verdict, now: int)
      returns (result: Result<Evaluation, StreamDenial>)
      requires Valid()
      modifies this, Objects()
      ensures Valid() && Objects() <= old(Objects())
      ensures (View(), result) == S.Finish(old(View()), key, sequence, expected, verdict, now)
    {
      hide Find, Ended;
      if sequence < 1 {
        return Err(StreamRequestMalformed);
      }
      var found := Lookup(key, now);
      if found.Err? {
        return Err(found.code);
      }
      var session := found.value;
      if session.profileDigest != expected {
        return Err(StreamProfileChanged);
      }
      if sequence != session.nextSequence {
        return Err(StreamSequenceInvalid);
      }
      ghost var looked := View();
      var content, bytes := session.consumed, session.bufferedBytes;
      session.Finish(now);
      assert forall k | k in sessions && k != key :: sessions[k] != session;
      assert View() == looked[key := Ended(looked[key], now)];
      return Ok(Evaluation(verdict, session.View(), content, bytes));
    }
  }
}
