/** Runs, profiles and the archiving of a workspace: what the API, the scheduler and
    the workers do to them, one transaction at a time under the workspace lock. */
module Lifecycle {
  import opened Prelude
  import opened RunLease
  import opened RunClaims

  type Id = string

  const DAY: int := 86400
  const MAX_BATCH: nat := 1000

  datatype Profile = Profile(enabled: bool, revision: nat, connections: (Id, Id), scheduled: Option<Time>)

  datatype Record = Record(profile: Id, revision: nat, manual: bool, dryRun: bool, createdAt: Time, run: Run)

  datatype Refusal =
    | WorkspaceArchived | NotFound | RunAlreadyActive(index: nat) | Cooldown(retryAfter: nat) | NotCancelable
    | HasRunningSync(index: nat) | ProfileQuotaExceeded | ProfileHasActiveRun | ProfileHasBindings

  predicate IsActive(records: seq<Record>, i: nat)
    requires i < |records|
  {
    records[i].run.status.Active()
  }

  /** At most one active run per profile. */
  ghost predicate OneActiveEach(records: seq<Record>) {
    forall i, j :: 0 <= i < j < |records| && IsActive(records, i) && IsActive(records, j) ==>
      records[i].profile != records[j].profile
  }

  ghost predicate HasActive(records: seq<Record>, profile: Id) {
    exists i :: 0 <= i < |records| && records[i].profile == profile && IsActive(records, i)
  }

  ghost predicate Dormant(profiles: map<Id, Profile>, records: seq<Record>) {
    && (forall p :: p in profiles ==> !profiles[p].enabled)
    && forall i :: 0 <= i < |records| ==> !IsActive(records, i)
  }

  /** The i-th record with its run replaced. */
  function WithRun(records: seq<Record>, i: nat, run: Run): seq<Record>
    requires i < |records|
  {
    records[i := records[i].(run := run)]
  }

  function Queued(profile: Id, revision: nat, manual: bool, dryRun: bool, now: Time): Record {
    Record(profile, revision, manual, dryRun, now, Run(QUEUED, None, None, None, Some(now)))
  }

  function Scheduled(id: Id, profile: Profile, next: Option<Time>, now: Time): Record {
    Record(id, profile.revision, false, false, now,
           if next.Some? then Run(QUEUED, None, None, None, Some(now)) else Run(FAILED, None, None, None, None))
  }

  function Clamp(limit: int): (n: nat)
    ensures 1 <= n <= 1000
    ensures 1 <= limit <= 1000 ==> n == limit
    ensures limit > 1000 ==> n == 1000
  {
    if limit < 1 then 1 else if limit > MAX_BATCH then MAX_BATCH else limit
  }

  /** Disabled, and out of the schedule. */
  function AllDisabled(profiles: map<Id, Profile>): map<Id, Profile> {
    map p | p in profiles :: profiles[p].(enabled := false)
  }

  function QueuedCanceled(records: seq<Record>): (r: seq<Record>)
    ensures |r| == |records|
    ensures forall i :: 0 <= i < |records| ==> r[i] == records[i].(run := Cancel(records[i].run))
  {
    seq(|records|, i requires 0 <= i < |records| => records[i].(run := Cancel(records[i].run)))
  }

  /** Replacing a run by one that is not active unless it was keeps one active run each. */
  lemma StillOneActive(records: seq<Record>, i: nat, run: Run)
    requires i < |records| && OneActiveEach(records) && (run.status.Active() ==> IsActive(records, i))
    ensures OneActiveEach(WithRun(records, i, run))
    ensures forall j :: 0 <= j < |records| && IsActive(WithRun(records, i, run), j) ==> IsActive(records, j)
  {
    var after := WithRun(records, i, run);
    forall j | 0 <= j < |records| && IsActive(after, j) ensures IsActive(records, j) {
      assert j != i ==> after[j] == records[j];
    }
    forall j, k | 0 <= j < k < |after| && IsActive(after, j) && IsActive(after, k)
      ensures after[j].profile != after[k].profile
    {
      assert IsActive(records, j) && IsActive(records, k);
    }
  }

  class Workspace {
    var archived: bool
    var quota: nat
    var cooldown: nat
    var profiles: map<Id, Profile>
    var records: seq<Record>

    ghost predicate Valid()
      reads this
    {
      && OneActiveEach(records)
      && (forall i :: 0 <= i < |records| ==> Coherent(records[i].run))
      && (archived ==> Dormant(profiles, records))
    }

    constructor (profileQuota: nat, manualCooldown: nat)
      ensures Valid() && !archived && profiles == map[] && records == []
      ensures quota == profileQuota && cooldown == manualCooldown
    {
      archived, quota, cooldown, profiles, records := false, profileQuota, manualCooldown, map[], [];
    }

    method ActiveRun(profile: Id) returns (k: nat)
      ensures k <= |records|
      ensures k < |records| ==> records[k].profile == profile && IsActive(records, k)
      ensures k == |records| ==> !HasActive(records, profile)
    {
      k := 0;
      while k < |records| && !(records[k].profile == profile && records[k].run.status.Active())
        invariant 0 <= k <= |records|
        invariant forall i :: 0 <= i < k ==> !(records[i].profile == profile && IsActive(records, i))
      {
        k := k + 1;
      }
    }

    method LastManual(profile: Id) returns (last: Option<Time>)
      ensures last.None? <==> forall i :: 0 <= i < |records| ==> !Counts(records, profile, i)
      ensures last.Some? ==>
                && (exists i :: 0 <= i < |records| && Counts(records, profile, i) && records[i].createdAt == last.value)
                && forall i :: 0 <= i < |records| && Counts(records, profile, i) ==> records[i].createdAt <= last.value
    {
      last := None;
      var k := 0;
      while k < |records|
        invariant 0 <= k <= |records|
        invariant last.None? <==> forall i :: 0 <= i < k ==> !Counts(records, profile, i)
        invariant last.Some? ==>
                    && (exists i :: 0 <= i < k && Counts(records, profile, i) && records[i].createdAt == last.value)
                    && forall i :: 0 <= i < k && Counts(records, profile, i) ==> records[i].createdAt <= last.value
      {
        if Counts(records, profile, k) && (last.None? || last.value < records[k].createdAt) {
          last := Some(records[k].createdAt);
        }
        k := k + 1;
      }
    }

    /** `start_run`. */
    method StartRun(profile: Id, dryRun: bool, now: Time) returns (refused: Option<Refusal>)
      requires Valid()
      modifies this`records
      ensures Valid()
      ensures refused.None? ==>
                && !archived && profile in profiles && !HasActive(old(records), profile)
                && records == old(records) + [Record(profile, profiles[profile].revision, true, dryRun, now,
                                                     Run(QUEUED, None, None, None, Some(now)))]
      ensures refused.Some? ==> records == old(records)
      ensures refused.None? <==>
                && !archived && profile in profiles && !HasActive(old(records), profile)
                && (dryRun || cooldown == 0
                    || forall i :: 0 <= i < |old(records)| && old(records)[i].profile == profile
                                   && old(records)[i].manual && !old(records)[i].dryRun ==>
                         old(records)[i].createdAt + cooldown <= now)
      ensures archived ==> refused == Some(WorkspaceArchived)
      ensures !archived && profile !in profiles ==> refused == Some(NotFound)
      ensures !archived && profile in profiles && HasActive(records, profile) && refused.Some? ==>
                refused.value.RunAlreadyActive?
      ensures refused.Some? && refused.value.Cooldown? ==>
                && !dryRun && refused.value.retryAfter >= 1
                && exists i :: 0 <= i < |records| && Counts(records, profile, i) && records[i].createdAt + cooldown > now
      ensures refused.None? && !dryRun && cooldown > 0 ==>
                forall i :: 0 <= i < |old(records)| && Counts(old(records), profile, i) ==>
                  old(records)[i].createdAt + cooldown <= now
    {
      if archived {
        return Some(WorkspaceArchived);
      }
      if profile !in profiles {
        return Some(NotFound);
      }
      var active := ActiveRun(profile);
      if active < |records| {
        return Some(RunAlreadyActive(active));
      }
      if !dryRun && cooldown > 0 {
        var last := LastManual(profile);
        if last.Some? && last.value + cooldown > now {
          return Some(Cooldown(last.value + cooldown - now));
        }
        forall i | 0 <= i < |records| && records[i].profile == profile && records[i].manual && !records[i].dryRun
          ensures records[i].createdAt + cooldown <= now
        {
          assert Counts(records, profile, i);
        }
      }
      records := records + [Queued(profile, profiles[profile].revision, true, dryRun, now)];
      refused := None;
    }

    /** `cancel_run`. */
    method CancelRun(i: nat) returns (refused: Option<Refusal>)
      requires Valid()
      modifies this`records
      ensures Valid()
      ensures refused.None? <==> i < |old(records)| && old(records)[i].run.status.QUEUED?
      ensures records == if refused.None? then WithRun(old(records), i, Cancel(old(records)[i].run)) else old(records)
      ensures refused.None? ==> records[i].run.status.CANCELED?
    {
      if i >= |records| {
        return Some(NotFound);
      }
      if !records[i].run.status.QUEUED? {
        return Some(NotCancelable);
      }
      StillOneActive(records, i, Cancel(records[i].run));
      records := WithRun(records, i, Cancel(records[i].run));
      refused := None;
    }

    /** `update_workspace`: archiving is refused while a run is executing; it cancels
        what is queued and disables every profile. */
    method Archive() returns (refused: Option<Refusal>)
      requires Valid()
      modifies this
      ensures Valid() && quota == old(quota) && cooldown == old(cooldown)
      ensures refused.None? <==> old(archived) || forall i :: 0 <= i < |old(records)| ==> !old(records)[i].run.status.RUNNING?
      ensures refused.None? ==> archived
      ensures refused.Some? ==> archived == old(archived) && profiles == old(profiles) && records == old(records)
      ensures refused.None? && !old(archived) ==>
                && |records| == |old(records)| && profiles.Keys == old(profiles).Keys
                && (forall i :: 0 <= i < |records| ==>
                      records[i] == if old(records)[i].run.status.QUEUED?
                                    then old(records)[i].(run := old(records)[i].run.(status := CANCELED)) else old(records)[i])
                && forall p :: p in profiles ==> profiles[p] == old(profiles)[p].(enabled := false)
      ensures old(archived) ==> records == old(records) && profiles == old(profiles)
    {
      if archived {
        return None;
      }
      var k := 0;
      while k < |records|
        invariant 0 <= k <= |records|
        invariant forall i :: 0 <= i < k ==> !records[i].run.status.RUNNING?
      {
        if records[k].run.status.RUNNING? {
          return Some(HasRunningSync(k));
        }
        k := k + 1;
      }
      archived := true;
      profiles := AllDisabled(profiles);
      records := QueuedCanceled(records);
      refused := None;
    }

    method Unarchive()
      requires Valid()
      modifies this`archived
      ensures Valid() && !archived
    {
      archived := false;
    }

    /** `create_profile`. */
    method CreateProfile(id: Id, enabled: bool, connections: (Id, Id), next: Option<Time>) returns (refused: Option<Refusal>)
      requires Valid() && id !in profiles
      modifies this`profiles
      ensures Valid()
      ensures refused.None? <==> !(archived && enabled) && |old(profiles)| < quota
      ensures profiles == if refused.Some? then old(profiles)
                          else old(profiles)[id := Profile(enabled, 1, connections, if enabled then next else None)]
    {
      if archived && enabled {
        return Some(WorkspaceArchived);
      }
      if |profiles| >= quota {
        return Some(ProfileQuotaExceeded);
      }
      profiles := profiles[id := Profile(enabled, 1, connections, if enabled then next else None)];
      refused := None;
    }

    /** `update_profile`: the archival guard, the guard on connection changes, and the
        revision that makes queued runs of the old configuration void. */
    method UpdateProfile(id: Id, enabled: Option<bool>, connections: Option<(Id, Id)>, reschedule: bool,
                         bound: bool, next: Option<Time>) returns (refused: Option<Refusal>)
      requires Valid()
      modifies this`profiles
      ensures Valid()
      ensures refused.Some? ==> profiles == old(profiles)
      ensures refused.None? ==>
                && id in old(profiles) && profiles.Keys == old(profiles).Keys
                && (forall p :: p in profiles && p != id ==> profiles[p] == old(profiles)[p])
                && profiles[id].revision == old(profiles)[id].revision + 1
                && (enabled.Some? ==> profiles[id].enabled == enabled.value)
                && (enabled.None? ==> profiles[id].enabled == old(profiles)[id].enabled)
                && (!profiles[id].enabled ==> profiles[id].scheduled == None)
      ensures refused.None? <==>
                && id in old(profiles) && !(archived && enabled == Some(true))
                && (connections.Some? && connections.value != old(profiles)[id].connections ==> !HasActive(records, id) && !bound)
      ensures refused.None? && connections.Some? ==> profiles[id].connections == connections.value
      ensures refused.None? && connections.None? ==> profiles[id].connections == old(profiles)[id].connections
      ensures refused.None? && profiles[id].enabled ==>
                profiles[id].scheduled == if old(profiles)[id].enabled && !reschedule && old(profiles)[id].scheduled.Some?
                                          then old(profiles)[id].scheduled else next
      ensures archived && enabled == Some(true) && id in old(profiles) ==> refused == Some(WorkspaceArchived)
    {
      if id !in profiles {
        return Some(NotFound);
      }
      var profile := profiles[id];
      if archived && enabled == Some(true) {
        return Some(WorkspaceArchived);
      }
      var effective := if connections.Some? then connections.value else profile.connections;
      if effective != profile.connections {
        var active := ActiveRun(id);
        if active < |records| {
          return Some(ProfileHasActiveRun);
        }
        if bound {
          return Some(ProfileHasBindings);
        }
      }
      var on := if enabled.Some? then enabled.value else profile.enabled;
      var scheduled := if !on then None
                       else if !profile.enabled || reschedule || profile.scheduled.None? then next
                       else profile.scheduled;
      profiles := profiles[id := Profile(on, profile.revision + 1, effective, scheduled)];
      refused := None;
    }

    /** A worker claims run i; an archived workspace ends it instead. */
    method ClaimRun(i: nat, token: Token, ttl: nat, around: Surroundings, now: Time) returns (granted: bool)
      requires Valid() && i < |records| && (around.Archived? <==> archived)
      modifies this`records
      ensures Valid() && |records| == |old(records)|
      ensures records == WithRun(old(records), i, Claim(old(records)[i].run, token, ttl, around, now).0)
      ensures granted == Claim(old(records)[i].run, token, ttl, around, now).1
      ensures granted ==> Fenced(records[i].run, token, now) || ttl == 0
      ensures !archived && (exists a :: Fenced(old(records)[i].run, a, now)) ==> !granted && records == old(records)
      ensures granted <==>
                && old(records)[i].run.status.Active() && (forall a :: !Fenced(old(records)[i].run, a, now))
                && old(records)[i].run.expires != Some(now)
                && (around.Usable? || (around.RevisionChanged? && old(records)[i].run.plan.Some?))
    {
      ClaimIsGrantedExactly(records[i].run, token, ttl, around, now);
      var (run, ok) := Claim(records[i].run, token, ttl, around, now);
      StillOneActive(records, i, run);
      records := WithRun(records, i, run);
      granted := ok;
    }

    /** `_create_due_runs`, first half: runs to deliver again, in the order of the
        table, at most `limit` of them. */
    method Redeliver(limit: nat, redelivery: nat, now: Time) returns (delivered: seq<nat>)
      requires Valid() && !archived
      modifies this`records
      ensures Valid() && |records| == |old(records)| && |delivered| <= limit
      ensures forall i :: 0 <= i < |records| ==>
                records[i] == if i in delivered then old(records)[i].(run := Deliver(old(records)[i].run, redelivery, now))
                              else old(records)[i]
      ensures forall k :: 0 <= k < |delivered| ==>
                delivered[k] < |records| && Delivers(old(records)[delivered[k]].run, redelivery, now)
      ensures forall k, l :: 0 <= k < l < |delivered| ==> delivered[k] < delivered[l]
      ensures |delivered| < limit ==>
                forall i :: 0 <= i < |records| && Delivers(old(records)[i].run, redelivery, now) ==> i in delivered
    {
      delivered := [];
      var i := 0;
      while i < |records| && |delivered| < limit
        invariant 0 <= i <= |records| == |old(records)| && |delivered| <= limit
        invariant Valid()
        invariant forall k :: 0 <= k < |delivered| ==>
                    delivered[k] < i && Delivers(old(records)[delivered[k]].run, redelivery, now)
        invariant forall k, l :: 0 <= k < l < |delivered| ==> delivered[k] < delivered[l]
        invariant forall j :: 0 <= j < i && Delivers(old(records)[j].run, redelivery, now) ==> j in delivered
        invariant forall j :: 0 <= j < |records| ==>
                    records[j] == if j in delivered then old(records)[j].(run := Deliver(old(records)[j].run, redelivery, now))
                                  else old(records)[j]
      {
        assert i !in delivered;
        if Delivers(records[i].run, redelivery, now) {
          StillOneActive(records, i, Deliver(records[i].run, redelivery, now));
          records := WithRun(records, i, Deliver(records[i].run, redelivery, now));
          delivered := delivered + [i];
        }
        i := i + 1;
      }
    }

    /** One due profile gets its run, or a failed one where its schedule is broken. */
    method ScheduleOne(id: Id, next: Option<Time>, now: Time) returns (queued: bool)
      requires Valid() && !archived && id in profiles && !HasActive(records, id)
      modifies this`records, this`profiles
      ensures Valid() && queued == next.Some?
      ensures records == old(records) + [Scheduled(id, old(profiles)[id], next, now)]
      ensures profiles == old(profiles)[id := old(profiles)[id].(scheduled := Some(NextLook(next, now)))]
    {
      queued := next.Some?;
      records := records + [Scheduled(id, profiles[id], next, now)];
      profiles := profiles[id := profiles[id].(scheduled := Some(NextLook(next, now)))];
    }

    /** `_create_due_runs`, second half: new runs for due profiles, taken in the order
        of `candidates`, at most `limit` of them. `following` is the schedule after
        now, None where it cannot be computed: then a failed run is recorded and the
        profile is looked at again a day later. */
    method CreateRuns(candidates: seq<Id>, limit: nat, following: Profile -> Option<Time>, now: Time) returns (created: nat)
      requires Valid() && !archived
      requires forall i, j :: 0 <= i < j < |candidates| ==> candidates[i] != candidates[j]
      requires forall i :: 0 <= i < |candidates| ==> candidates[i] in profiles
      modifies this`records, this`profiles
      ensures Valid() && |old(records)| <= |records| <= |old(records)| + limit
      ensures Created(old(profiles), old(records), profiles, records, candidates, following, now)
      ensures created == QueuedIn(records[|old(records)|..])
      ensures |records| < |old(records)| + limit ==>
                AllServed(old(profiles), old(records), records, candidates, now)
    {
      hide Created, AllServed, QueuedIn, HasActive, Served, IsDue, NewRun;
      created := 0;
      var k, taken := 0, 0;
      NothingCreated(profiles, records, candidates, following, now);
      while k < |candidates| && taken < limit
        invariant 0 <= k <= |candidates| && taken <= limit
        invariant Valid() && profiles.Keys == old(profiles).Keys
        invariant |records| == |old(records)| + taken
        invariant Created(old(profiles), old(records), profiles, records, candidates[..k], following, now)
        invariant created == QueuedIn(records[|old(records)|..])
        invariant AllServed(old(profiles), old(records), records, candidates[..k], now)
      {
        var id := candidates[k];
        var profile := profiles[id];
        assert id !in candidates[..k] && candidates[..k + 1] == candidates[..k] + [id];
        var active := ActiveRun(id);
        ghost var before, was := records, profiles;
        UntouchedYet(old(profiles), old(records), profiles, records, candidates[..k], following, now, id);
        if IsDue(profile, now) && active == |records| {
          var queued := ScheduleOne(id, following(profile), now);
          taken := taken + 1;
          created := created + (if queued then 1 else 0);
          QueuedNext(before, records[|before|], |old(records)|);
          OneCreated(old(profiles), old(records), was, before, candidates[..k], following, now, id);
        } else {
          NoneCreated(old(profiles), old(records), profiles, records, candidates[..k], following, now, id, active);
        }
        k := k + 1;
      }
      assert candidates[..|candidates|] == candidates;
      CreatedWider(old(profiles), old(records), profiles, records, candidates, k, following, now);
    }

    /** `_create_due_runs`: one batch of at most 1000 deliveries, old runs first. */
    method CreateDueRuns(limit: int, redelivery: nat, candidates: seq<Id>, following: Profile -> Option<Time>, now: Time)
      returns (delivered: seq<nat>, created: nat)
      requires Valid()
      requires forall i, j :: 0 <= i < j < |candidates| ==> candidates[i] != candidates[j]
      requires forall i :: 0 <= i < |candidates| ==> candidates[i] in profiles
      modifies this`records, this`profiles
      ensures Valid() && |delivered| + created <= Clamp(limit)
      ensures archived ==> delivered == [] && created == 0 && records == old(records) && profiles == old(profiles)
      ensures forall k :: 0 <= k < |delivered| ==>
                delivered[k] < |old(records)| && Delivers(old(records)[delivered[k]].run, redelivery, now)
      ensures |records| >= |old(records)| && created == QueuedIn(records[|old(records)|..])
      ensures |delivered| + (|records| - |old(records)|) <= Clamp(limit)
      ensures !archived ==> NewOnly(old(profiles), old(records), profiles, records, candidates, following, now)
      ensures !archived && |delivered| + (|records| - |old(records)|) < Clamp(limit) ==>
                AllServed(old(profiles), old(records), records, candidates, now)
      ensures forall i :: 0 <= i < |old(records)| ==>
                records[i] == if i in delivered then old(records)[i].(run := Deliver(old(records)[i].run, redelivery, now))
                              else old(records)[i]
    {
      delivered, created := [], 0;
      if archived {
        return;
      }
      delivered := Redeliver(Clamp(limit), redelivery, now);
      if |delivered| < Clamp(limit) {
        ghost var middle := records;
        created := CreateRuns(candidates, Clamp(limit) - |delivered|, following, now);
        CreatedAfterDelivery(old(profiles), old(records), middle, profiles, records, candidates, redelivery, following, now);
      } else {
        assert records[|old(records)|..] == [];
      }
    }

    method FinishRun(i: nat, token: Token, status: RunStatus, now: Time) returns (accepted: bool)
      requires Valid() && i < |records| && !status.Active()
      modifies this`records
      ensures Valid()
      ensures records == WithRun(old(records), i, Finish(old(records)[i].run, token, status, now).0)
      ensures accepted == Finish(old(records)[i].run, token, status, now).1
    {
      var (run, ok) := Finish(records[i].run, token, status, now);
      StillOneActive(records, i, run);
      records := WithRun(records, i, run);
      accepted := ok;
    }
  }

  /** A record that one batch adds: for a due candidate without active run, queued, or
      failed where its schedule is broken. */
  ghost predicate NewRun(record: Record, profiles: map<Id, Profile>, records: seq<Record>, candidates: seq<Id>,
                         following: Profile -> Option<Time>, now: Time)
  {
    && record.profile in candidates && record.profile in profiles
    && var profile := profiles[record.profile];
       && profile.enabled && (profile.scheduled.Some? ==> profile.scheduled.value <= now) && !HasActive(records, record.profile)
       && record.revision == profile.revision && !record.manual && !record.dryRun && record.createdAt == now
       && record.run == if following(profile).Some? then Run(QUEUED, None, None, None, Some(now))
                        else Run(FAILED, None, None, None, None)
  }

  /** From `profiles` and `records` to `after` and `later`: records are added only as
      `NewRun` says, their profiles get their next time, and no other profile changes. */
  ghost predicate NewOnly(profiles: map<Id, Profile>, records: seq<Record>, after: map<Id, Profile>, later: seq<Record>,
                          candidates: seq<Id>, following: Profile -> Option<Time>, now: Time)
  {
    && after.Keys == profiles.Keys && |records| <= |later|
    && (forall i :: |records| <= i < |later| ==> NewRun(later[i], profiles, records, candidates, following, now))
    && (forall p :: p in profiles ==>
          after[p] == if Served(later, |records|, p)
                      then profiles[p].(scheduled := if following(profiles[p]).Some? then following(profiles[p])
                                                     else Some(now + 24 * 60 * 60))
                      else profiles[p])
  }

  ghost predicate Created(profiles: map<Id, Profile>, records: seq<Record>, after: map<Id, Profile>, later: seq<Record>,
                          candidates: seq<Id>, following: Profile -> Option<Time>, now: Time)
  {
    records <= later && NewOnly(profiles, records, after, later, candidates, following, now)
  }

  /** Every due candidate without active run has got one. */
  ghost predicate AllServed(profiles: map<Id, Profile>, records: seq<Record>, later: seq<Record>, candidates: seq<Id>, now: Time) {
    forall p :: p in candidates && p in profiles && !HasActive(records, p)
                && profiles[p].enabled && (profiles[p].scheduled.Some? ==> profiles[p].scheduled.value <= now) ==>
      Served(later, |records|, p)
  }

  lemma NothingCreated(profiles: map<Id, Profile>, records: seq<Record>, candidates: seq<Id>,
                       following: Profile -> Option<Time>, now: Time)
    ensures Created(profiles, records, profiles, records, candidates[..0], following, now)
    ensures AllServed(profiles, records, records, candidates[..0], now) && QueuedIn(records[|records|..]) == 0
  {
  }

  /** A candidate not yet looked at is as it was, and has no run of this batch. */
  lemma UntouchedYet(profiles: map<Id, Profile>, records: seq<Record>, after: map<Id, Profile>, later: seq<Record>,
                     earlier: seq<Id>, following: Profile -> Option<Time>, now: Time, id: Id)
    requires Created(profiles, records, after, later, earlier, following, now) && id !in earlier && id in profiles
    ensures !Served(later, |records|, id) && id in after && after[id] == profiles[id]
    ensures HasActive(later, id) <==> HasActive(records, id)
  {
    forall i | |records| <= i < |later| ensures later[i].profile != id {
      assert NewRun(later[i], profiles, records, earlier, following, now);
    }
    if HasActive(later, id) {
      var i :| 0 <= i < |later| && later[i].profile == id && IsActive(later, i);
      assert i < |records| && later[i] == records[i];
      assert IsActive(records, i);
    }
    if HasActive(records, id) {
      var i :| 0 <= i < |records| && records[i].profile == id && IsActive(records, i);
      assert later[i] == records[i];
      assert IsActive(later, i);
    }
  }

  lemma OneCreated(profiles: map<Id, Profile>, records: seq<Record>, after: map<Id, Profile>, later: seq<Record>,
                   earlier: seq<Id>, following: Profile -> Option<Time>, now: Time, id: Id)
    requires Created(profiles, records, after, later, earlier, following, now) && AllServed(profiles, records, later, earlier, now)
    requires id !in earlier && id in profiles && id in after && after[id] == profiles[id]
    requires IsDue(profiles[id], now) && !HasActive(records, id)
    ensures var next := following(profiles[id]);
            var longer := later + [Scheduled(id, profiles[id], next, now)];
            var changed := after[id := profiles[id].(scheduled := Some(NextLook(next, now)))];
            && Created(profiles, records, changed, longer, earlier + [id], following, now)
            && AllServed(profiles, records, longer, earlier + [id], now)
  {
    var next := following(profiles[id]);
    var longer := later + [Scheduled(id, profiles[id], next, now)];
    ServedLonger(later, Scheduled(id, profiles[id], next, now), |records|);
    forall i | |records| <= i < |longer| ensures NewRun(longer[i], profiles, records, earlier + [id], following, now) {
      assert i < |later| ==> NewRun(later[i], profiles, records, earlier, following, now);
    }
  }

  lemma NoneCreated(profiles: map<Id, Profile>, records: seq<Record>, after: map<Id, Profile>, later: seq<Record>,
                    earlier: seq<Id>, following: Profile -> Option<Time>, now: Time, id: Id, active: nat)
    requires Created(profiles, records, after, later, earlier, following, now) && AllServed(profiles, records, later, earlier, now)
    requires id in profiles && id in after && after[id] == profiles[id] && (HasActive(later, id) <==> HasActive(records, id))
    requires active <= |later| && (active < |later| ==> later[active].profile == id && IsActive(later, active))
    requires !(IsDue(profiles[id], now) && active == |later|)
    ensures Created(profiles, records, after, later, earlier + [id], following, now)
    ensures AllServed(profiles, records, later, earlier + [id], now)
  {
    forall i | |records| <= i < |later| ensures NewRun(later[i], profiles, records, earlier + [id], following, now) {
      assert NewRun(later[i], profiles, records, earlier, following, now);
    }
  }

  lemma CreatedWider(profiles: map<Id, Profile>, records: seq<Record>, after: map<Id, Profile>, later: seq<Record>,
                     candidates: seq<Id>, k: nat, following: Profile -> Option<Time>, now: Time)
    requires k <= |candidates| && Created(profiles, records, after, later, candidates[..k], following, now)
    ensures Created(profiles, records, after, later, candidates, following, now)
  {
    forall i | |records| <= i < |later| ensures NewRun(later[i], profiles, records, candidates, following, now) {
      assert NewRun(later[i], profiles, records, candidates[..k], following, now);
    }
  }

  /** What was created after a redelivery was created, seen from before it. */
  lemma CreatedAfterDelivery(profiles: map<Id, Profile>, records: seq<Record>, middle: seq<Record>, after: map<Id, Profile>,
                             later: seq<Record>, candidates: seq<Id>, redelivery: nat, following: Profile -> Option<Time>, now: Time)
    requires |middle| == |records| && Created(profiles, middle, after, later, candidates, following, now)
    requires forall i :: 0 <= i < |records| ==>
               middle[i] == records[i] || middle[i] == records[i].(run := Deliver(records[i].run, redelivery, now))
    ensures NewOnly(profiles, records, after, later, candidates, following, now)
    ensures AllServed(profiles, middle, later, candidates, now) ==> AllServed(profiles, records, later, candidates, now)
    ensures forall i :: 0 <= i < |records| ==> later[i] == middle[i]
  {
    forall p ensures HasActive(middle, p) <==> HasActive(records, p) {
      DeliveredStayActive(records, middle, redelivery, now, p);
    }
    forall i | |records| <= i < |later| ensures NewRun(later[i], profiles, records, candidates, following, now) {
      assert NewRun(later[i], profiles, middle, candidates, following, now);
    }
  }

  /** `_create_due_runs` takes a profile up when it is enabled and its time has come. */
  predicate IsDue(profile: Profile, now: Time) {
    profile.enabled && (profile.scheduled.None? || profile.scheduled.value <= now)
  }

  function NextLook(following: Option<Time>, now: Time): Time {
    if following.Some? then following.value else now + DAY
  }

  /** How many of the records are queued runs. */
  function QueuedIn(records: seq<Record>): (n: nat)
    ensures n <= |records|
  {
    if records == [] then 0
    else QueuedIn(records[..|records| - 1]) + (if records[|records| - 1].run.status.QUEUED? then 1 else 0)
  }

  lemma QueuedNext(records: seq<Record>, record: Record, from: nat)
    requires from <= |records|
    ensures QueuedIn((records + [record])[from..])
            == QueuedIn(records[from..]) + (if record.run.status.QUEUED? then 1 else 0)
  {
    assert (records + [record])[from..] == records[from..] + [record];
    assert (records[from..] + [record])[..|records| - from] == records[from..];
  }

  /** Delivering runs again makes none active and ends none. */
  lemma DeliveredStayActive(before: seq<Record>, after: seq<Record>, redelivery: nat, now: Time, profile: Id)
    requires |after| == |before|
    requires forall i :: 0 <= i < |before| ==>
               after[i] == before[i] || after[i] == before[i].(run := Deliver(before[i].run, redelivery, now))
    ensures HasActive(after, profile) <==> HasActive(before, profile)
  {
    assert forall i :: 0 <= i < |before| ==> (IsActive(after, i) <==> IsActive(before, i));
  }

  /** A run of the profile was recorded from position `from` on. */
  ghost predicate Served(records: seq<Record>, from: nat, profile: Id) {
    exists i :: from <= i < |records| && records[i].profile == profile
  }

  lemma ServedLonger(records: seq<Record>, record: Record, from: nat)
    requires from <= |records|
    ensures forall p :: Served(records + [record], from, p) <==> Served(records, from, p) || p == record.profile
  {
    var all := records + [record];
    assert all[|records|] == record;
    assert forall i :: 0 <= i < |records| ==> all[i] == records[i];
  }

  /** A manual run that counts for the cooldown. */
  predicate Counts(records: seq<Record>, profile: Id, i: nat)
    requires i < |records|
  {
    records[i].profile == profile && records[i].manual && !records[i].dryRun
  }
}
