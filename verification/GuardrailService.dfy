/** The guardrail service as the object it is, over the profile manager and the stream registry. */
module GuardrailServices {
  import opened Results
  import opened Streams
  import opened StreamRegistries
  import opened ProfileManagers
  import opened GuardrailSteps

  class GuardrailStore {
    var records: seq<Evaluation>

    constructor ()
      ensures records == []
    {
      records := [];
    }

    method Record(evaluation: Evaluation, fails: bool) returns (ok: bool)
      modifies this
      ensures ok == !fails
      ensures records == if fails then old(records) else old(records) + [evaluation]
    {
      if !fails {
        records := records + [evaluation];
      }
      return !fails;
    }
  }

  class GuardrailService {
    const profiles: ProfileManager
    const streams: StreamRegistry
    const store: GuardrailStore

    ghost predicate Valid()
      reads this, streams
    {
      profiles.streams == streams && streams.Valid()
    }

    ghost function View(): World
      reads this, profiles, streams, streams.Objects(), store
    {
      World(profiles.states, streams.View(), store.records)
    }

    constructor (profiles: ProfileManager, store: GuardrailStore)
      requires profiles.streams.Valid()
      ensures Valid() && this.profiles == profiles && this.store == store && streams == profiles.streams
    {
      this.profiles := profiles;
      this.streams := profiles.streams;
      this.store := store;
    }

    method CreateStream(organizationId: string, profileId: string, id: string, now: int) returns (reply: Reply)
      requires Valid()
      modifies streams, streams.Objects()
      ensures Valid()
      ensures (View(), reply) == Step(old(View()), Event.CreateStream(organizationId, profileId, id, now))
    {
      hide Create, ExpireProfile;
      var active := profiles.Active(ProfileKey(organizationId, profileId), now);
      if active.Err? {
        return ProfileRefused(active.code);
      }
      var created := streams.Create(organizationId, active.value, id, now);
      return if created.Err? then StreamRefused(created.code) else Created(created.value);
    }

    /** `profile_for` and `_active`. */
    method FindActive(stream: StreamKey, now: int) returns (admitted: Result<Profile, Reply>)
      requires Valid()
      modifies streams, streams.Objects()
      ensures Valid() && streams.Objects() <= old(streams.Objects())
      ensures (streams.View(), admitted) == Admit(old(View()), stream, now)
    {
      hide Find, ExpireProfile;
      var found := streams.Lookup(stream, now);
      if found.Err? {
        return Err(StreamRefused(found.code));
      }
      var active := profiles.Active(ProfileKey(stream.organizationId, found.value.profileId), now);
      return if active.Err? then Err(ProfileRefused(active.code)) else Ok(active.value);
    }

    method PushStream(stream: StreamKey, sequence: int, content: Bytes, verdict: Verdict, now: int, storeFails: bool)
      returns (reply: Reply)
      requires Valid()
      modifies streams, streams.Objects(), store
      ensures Valid()
      ensures (View(), reply) ==
              Step(old(View()), Event.PushStream(stream, sequence, content, verdict, now, storeFails))
    {
      hide Outcome;
      var outcome := TryPush(stream, sequence, content, verdict, now, storeFails);
      if outcome.Err? {
        return outcome.code;
      }
      ghost var sessions := streams.View();
      var recorded := store.Record(outcome.value, storeFails);
      assert streams.View() == sessions;
      return if recorded then Evaluated(outcome.value) else AuditCommitFailed;
    }

    method TryPush(stream: StreamKey, sequence: int, content: Bytes, verdict: Verdict, now: int, ghost storeFails: bool)
      returns (outcome: Result<Evaluation, Reply>)
      requires Valid()
      modifies streams, streams.Objects()
      ensures Valid()
      ensures (streams.View(), outcome) ==
              Outcome(old(View()), Event.PushStream(stream, sequence, content, verdict, now, storeFails))
    {
      hide Push, Admit;
      if content == [] {
        return Err(StreamRefused(StreamRequestMalformed));
      }
      var admitted := FindActive(stream, now);
      if admitted.Err? {
        return Err(admitted.code);
      }
      var pushed := streams.Push(stream, sequence, content, admitted.value.digest, verdict, now);
      return if pushed.Err? then Err(StreamRefused(pushed.code)) else Ok(pushed.value);
    }

    method FinishStream(stream: StreamKey, sequence: int, verdict: Verdict, now: int, storeFails: bool)
      returns (reply: Reply)
      requires Valid()
      modifies streams, streams.Objects(), store
      ensures Valid()
      ensures (View(), reply) == Step(old(View()), Event.FinishStream(stream, sequence, verdict, now, storeFails))
    {
      hide Outcome;
      var outcome := TryFinish(stream, sequence, verdict, now, storeFails);
      if outcome.Err? {
        return outcome.code;
      }
      ghost var sessions := streams.View();
      var recorded := store.Record(outcome.value, storeFails);
      assert streams.View() == sessions;
      return if recorded then Evaluated(outcome.value) else AuditCommitFailed;
    }

    method TryFinish(stream: StreamKey, sequence: int, verdict: Verdict, now: int, ghost storeFails: bool)
      returns (outcome: Result<Evaluation, Reply>)
      requires Valid()
      modifies streams, streams.Objects()
      ensures Valid()
      ensures (streams.View(), outcome) ==
              Outcome(old(View()), Event.FinishStream(stream, sequence, verdict, now, storeFails))
    {
      hide Finish, Admit;
      var admitted := FindActive(stream, now);
      if admitted.Err? {
        return Err(admitted.code);
      }
      var finished := streams.Finish(stream, sequence, admitted.value.digest, verdict, now);
      return if finished.Err? then Err(StreamRefused(finished.code)) else Ok(finished.value);
    }

    /** One call, on the service or on its profile manager, is one step of the run. */
    method Perform(e: Event) returns (reply: Reply)
      requires Valid()
      modifies profiles`states, streams, streams.Objects(), store
      ensures Valid()
      ensures (View(), reply) == Step(old(View()), e)
    {
      hide CreateStep, StreamStep, ExpireProfile;
      match e
      case Activate(artifact, now) =>
        var result := profiles.Activate(artifact, now);
        reply := if result.Ok? then Trusted(result.value) else ProfileRefused(result.code);
      case Revoke(key, digest) =>
        profiles.Revoke(key, digest);
        reply := Done;
      case Rollback(key, now) =>
        var result := profiles.Rollback(key, now);
        reply := if result.Ok? then Trusted(result.value) else ProfileRefused(result.code);
      case Query(key, now) =>
        var result := profiles.Active(key, now);
        reply := if result.Ok? then Trusted(result.value) else ProfileRefused(result.code);
      case CreateStream(organizationId, profileId, id, now) =>
        reply := CreateStream(organizationId, profileId, id, now);
      case PushStream(stream, sequence, content, verdict, now, storeFails) =>
        reply := PushStream(stream, sequence, content, verdict, now, storeFails);
      case FinishStream(stream, sequence, verdict, now, storeFails) =>
        reply := FinishStream(stream, sequence, verdict, now, storeFails);
    }
  }
}
