/** Pool replicas as the pool controller holds them, in mutable objects and lists. */
module PoolReplicas {
  import opened Labels
  import opened Kube
  import R = Replica
  import Counting
  import opened Client

  /** Keeps book of what was persisted, in order, and of what was deleted with
      success; and of the cluster as it was when the log was `base` long, with a name
      in it for a new replica. */
  class Ledger {
    ghost const start: Cluster
    ghost const base: nat
    ghost const spare: Key
    ghost var persisted: seq<PoolReplica>
    ghost var deleted: multiset<PoolReplica>

    constructor (ghost start: Cluster, ghost base: nat, ghost spare: Key)
      ensures this.start == start && this.base == base && this.spare == spare
      ensures persisted == [] && deleted == multiset{}
    {
      this.start := start;
      this.base := base;
      this.spare := spare;
      persisted := [];
      deleted := multiset{};
    }

    /** The cluster as these calls leave it, if nobody but their caller has changed it
        since. */
    ghost function Now(log: seq<Exchange>): Option<Cluster> {
      if base <= |log| then Counting.Served(start, log[base..]) else None
    }

    lemma NowThen(before: seq<Exchange>, now: seq<Exchange>)
      requires base <= |before| && before <= now
      ensures Now(now) == if Now(before).Some? then Counting.Served(Now(before).value, now[|before|..]) else None
    {
      hide Counting.Served;
      Counting.ServedThen(start, before[base..], now[|before|..]);
      assert now[base..] == before[base..] + now[|before|..];
    }
  }

  class PoolReplica {
    const pool: Pool
    const key: Key
    var claim: Claim
    var volume: Option<NamedVolume>
    var job: Job

    constructor (pool: Pool, key: Key)
      ensures this.pool == pool && this.key == key && State() == R.NewReplica(key)
    {
      this.pool := pool;
      this.key := key;
      claim := NEW_CLAIM;
      volume := None;
      job := NEW_JOB;
    }

    function State(): R.Replica
      reads this
    {
      R.Replica(key, claim, volume, job)
    }

    ghost function At(pc: R.ReplicaPc): R.ReplicaProc
      reads this
    {
      R.ReplicaProc(pool, pc, State())
    }

    predicate Stale()
      reads this
    {
      R.Stale(State())
    }

    predicate Available()
      reads this
    {
      R.Available(State())
    }

    /** Loads job, claim and volume, as the automaton does. */
    method Load(api: Client) returns (ok: bool, err: Option<Failure>)
      modifies this`claim, this`volume, this`job, api`calls, api`log
      ensures var q := ReplicaAfter(old(At(R.LoadJob)), old(api.log), api.log);
        && q.Some? && q.value.mem == State()
        && (err.Some? <==> q.value.pc == R.Broken)
        && err != Some(NoneAvailable) && err != Some(NameTaken)
        && (err.None? ==> if ok then q.value.pc == R.Ready else q.value.pc == R.Gone)
    {
      hide ReplicaAfter;
      ghost var p0, before := At(R.LoadJob), api.log;
      ReplicaStart(p0, before);

      var got := api.Call(GetJob(key));
      ReplicaStep(p0, before, before, api.log[|before|], p0);
      if got.Refused? {
        return false, Some(Api(got.error));
      }
      if got.foundJob.Some? {
        job := got.foundJob.value;
      }
      ghost var p1, log1 := R.ReplicaProc(pool, R.LoadClaim, State()), api.log;

      got := api.Call(GetClaim(key));
      ReplicaStep(p0, before, log1, api.log[|log1|], p1);
      if got.Refused? {
        return false, Some(Api(got.error));
      } else if got.found.None? {
        return false, None;
      }
      claim := got.found.value;
      if claim.phase != Bound {
        return true, None;
      }
      ghost var p2, log2 := R.ReplicaProc(pool, R.LoadVolume, State()), api.log;

      got := api.Call(GetVolume(claim.spec.volumeName));
      ReplicaStep(p0, before, log2, api.log[|log2|], p2);
      if got.Refused? {
        return false, Some(Api(got.error));
      } else if got.foundVolume.None? {
        return false, None;
      }
      var v := got.foundVolume.value;
      if v.spec.claimRef.None? {
        return false, Some(Unreferring);
      } else if v.spec.claimRef.value.uid != claim.uid {
        return false, None;
      }
      volume := Some(NamedVolume(claim.spec.volumeName.value, v));
      return true, None;
    }

    /** The job is done with or cannot be reconfigured: only the claim is written. */
    method PersistClaimAlone(api: Client) returns (err: Option<Failure>)
      requires Available() || job.uid != 0
      modifies this`claim, api`calls, api`log
      ensures var pc := if old(Available()) && old(job.uid) != 0 then R.PersistDropJob else R.PersistClaim;
        var q := ReplicaAfter(old(At(pc)), old(api.log), api.log);
        && q.Some? && q.value.mem == State()
        && (err.Some? <==> q.value.pc == R.Broken)
        && (err.None? <==> q.value.pc == R.Ready)
    {
      ghost var before := api.log;
      ghost var p0 := At(if Available() && job.uid != 0 then R.PersistDropJob else R.PersistClaim);
      ReplicaStart(p0, before);
      hide ReplicaAfter;
      if Available() && job.uid != 0 {
        var dropped := api.Call(DropJob(key, job.uid));
        ReplicaStep(p0, before, before, api.log[|before|], p0);
        if dropped.Refused? {
          return Some(Api(dropped.error));
        }
      }
      ghost var p1, log1 := At(R.PersistClaim), api.log;
      var stored := api.Call(PutClaim(key, claim));
      ReplicaStep(p0, before, log1, api.log[|log1|], p1);
      if stored.Refused? {
        return Some(Api(stored.error));
      }
      claim := stored.claim;
      return None;
    }

    /** The first time: the claim is written, then its init job. */
    method PersistClaimAndJob(api: Client) returns (err: Option<Failure>)
      requires !Available() && job.uid == 0
      modifies this`claim, this`job, api`calls, api`log
      ensures var q := ReplicaAfter(old(At(R.PersistClaim)), old(api.log), api.log);
        && q.Some? && q.value.mem == State()
        && (err.Some? <==> q.value.pc == R.Broken)
        && (err.None? <==> q.value.pc == R.Ready)
    {
      ghost var p0, before := At(R.PersistClaim), api.log;
      ReplicaStart(p0, before);
      hide ReplicaAfter;
      var stored := api.Call(PutClaim(key, claim));
      ReplicaStep(p0, before, before, api.log[|before|], p0);
      if stored.Refused? {
        return Some(Api(stored.error));
      }
      claim := stored.claim;
      job := job.(owner := claim.uid);
      ghost var p1, log1 := At(R.PersistJob), api.log;
      stored := api.Call(PutJob(key, job));
      ReplicaStep(p0, before, log1, api.log[|log1|], p1);
      if stored.Refused? {
        return Some(Api(stored.error));
      }
      job := stored.job;
      return None;
    }

    /** Writes the claim, and around it deletes or creates the init job. */
    method Persist(api: Client, ghost book: Ledger) returns (err: Option<Failure>)
      modifies this`claim, this`job, book`persisted, api`calls, api`log
      ensures book.persisted == old(book.persisted) + [this]
      ensures var q := ReplicaAfter(R.Persisting(old(At(R.Ready))), old(api.log), api.log);
        && q.Some? && q.value.mem == State()
        && (err.Some? <==> q.value.pc == R.Broken)
        && (err.None? <==> q.value.pc == R.Ready)
    {
      hide ReplicaAfter;
      ghost var p0, before := R.Persisting(At(R.Ready)), api.log;
      ReplicaStart(p0, before);
      book.persisted := book.persisted + [this];
      claim := claim.(labels := Overlay(claim.labels, pool.spec.template.labels),
                      annotations := Overlay(claim.annotations, pool.spec.template.annotations));
      if claim.controller.Some? && claim.controller != Some(PoolOwner(pool.uid)) {
        return Some(OwnedByOther);
      }
      claim := claim.(controller := Some(PoolOwner(pool.uid)));

      if Available() || job.uid != 0 {
        err := PersistClaimAlone(api);
      } else {
        if pool.spec.initJob.Some? {
          job := job.(labels := Overlay(job.labels, pool.spec.initJob.value.labels),
                      annotations := Overlay(job.annotations, pool.spec.initJob.value.annotations));
        }
        assert p0 == At(R.PersistClaim);
        err := PersistClaimAndJob(api);
      }
    }

    /** Deletes the job first: while it exists the claim cannot go.  If nothing was
        refused, the calls made are the removal of the job and then that of the claim,
        as far as they were loaded; otherwise the last one is such a removal, refused. */
    method Delete(api: Client, ghost book: Ledger) returns (err: Option<Failure>)
      modifies book`deleted, api`calls, api`log
      ensures book.deleted == old(book.deleted) + (if err.None? then multiset{this} else multiset{})
      ensures var q := ReplicaAfter(R.Deleting(At(R.Ready)), old(api.log), api.log);
        && q.Some? && q.value.mem == State()
        && (err.Some? <==> q.value.pc == R.Broken)
        && (err.None? <==> q.value.pc == R.Deleted)
      ensures old(api.log) <= api.log && (err.None? ==> DeletedBy(this, old(api.log), api.log))
      ensures err.None? ==> Drops(State(), api.log[|old(api.log)|..])
      ensures err.Some? ==> DropRefused(State(), api.log[|old(api.log)|..])
    {
      ghost var p0, before := R.Deleting(At(R.Ready)), api.log;
      ReplicaStart(p0, before);
      hide ReplicaAfter;
      if job.uid != 0 {
        var dropped := api.Call(DropJob(key, job.uid));
        ReplicaStep(p0, before, before, api.log[|before|], p0);
        if dropped.Refused? {
          DeletionCalls(pool, State(), before, api.log);
          return Some(Api(dropped.error));
        }
      }
      if claim.uid != 0 {
        ghost var p1, log1 := R.ReplicaProc(pool, R.DeleteClaim, State()), api.log;
        var dropped := api.Call(DropClaim(key, claim.uid));
        ReplicaStep(p0, before, log1, api.log[|log1|], p1);
        if dropped.Refused? {
          DeletionCalls(pool, State(), before, api.log);
          return Some(Api(dropped.error));
        }
      }
      DeletionCalls(pool, State(), before, api.log);
      book.deleted := book.deleted + multiset{this};
      return None;
    }
  }

  /** These calls removed the replica's job and then its claim, as far as they were
      loaded. */
  predicate Drops(r: R.Replica, calls: seq<Exchange>) {
    var (jobs, claims) := (if r.job.uid != 0 then 1 else 0, if r.claim.uid != 0 then 1 else 0);
    && |calls| == jobs + claims
    && (forall i | 0 <= i < |calls| :: calls[i].resp.Dropped?)
    && (jobs == 1 ==> calls[0].req == DropJob(r.key, r.job.uid))
    && (claims == 1 ==> calls[jobs].req == DropClaim(r.key, r.claim.uid))
  }

  /** The last of these calls was to remove the replica's job or claim, and was refused. */
  predicate DropRefused(r: R.Replica, calls: seq<Exchange>) {
    && calls != []
    && var last := calls[|calls| - 1];
    && last.resp.Refused?
    && if r.job.uid != 0 && |calls| == 1 then last.req == DropJob(r.key, r.job.uid)
       else r.claim.uid != 0 && last.req == DropClaim(r.key, r.claim.uid)
  }

  /** How far deleting has come, by the calls made. */
  lemma {:induction false} DeletionRun(pool: Pool, r: R.Replica, log: seq<Exchange>)
    requires R.ReplayReplica(R.Deleting(R.ReplicaProc(pool, R.Ready, r)), log).Some?
    ensures var q := R.ReplayReplica(R.Deleting(R.ReplicaProc(pool, R.Ready, r)), log).value;
      && q.mem == r
      && match q.pc
         case DeleteJob => log == [] && r.job.uid != 0
         case DeleteClaim => r.claim.uid != 0 && Drops(r.(claim := NEW_CLAIM), log)
         case Deleted => Drops(r, log)
         case Broken => DropRefused(r, log)
         case _ => false
  {
    if log != [] {
      DeletionRun(pool, r, log[..|log| - 1]);
    }
  }

  lemma DeletionCalls(pool: Pool, r: R.Replica, before: seq<Exchange>, now: seq<Exchange>)
    requires ReplicaAfter(R.Deleting(R.ReplicaProc(pool, R.Ready, r)), before, now).Some?
    ensures var q := ReplicaAfter(R.Deleting(R.ReplicaProc(pool, R.Ready, r)), before, now).value;
      (q.pc == R.Deleted ==> Drops(r, now[|before|..])) && (q.pc == R.Broken ==> DropRefused(r, now[|before|..]))
  {
    hide R.ReplayReplica, Drops, DropRefused;
    DeletionRun(pool, r, now[|before|..]);
  }

  /** The replica was deleted by the calls between these moments. */
  ghost predicate DeletedBy(pr: PoolReplica, before: seq<Exchange>, now: seq<Exchange>)
    reads pr
  {
    var q := ReplicaAfter(R.Deleting(pr.At(R.Ready)), before, now);
    q.Some? && q.value.pc == R.Deleted && Drops(pr.State(), now[|before|..])
  }

  // ------------------------------------------------- what persisting amounts to

  predicate PersistPc(pc: R.ReplicaPc) {
    pc.PersistDropJob? || pc.PersistClaim? || pc.PersistJob? || pc.Ready? || pc.Broken?
  }

  /** While it is persisted a replica keeps its volume and its annotations. */
  lemma {:induction false} PersistRun(p: R.ReplicaProc, log: seq<Exchange>)
    requires PersistPc(p.pc) && R.ReplayReplica(p, log).Some?
    ensures var q := R.ReplayReplica(p, log).value;
      && PersistPc(q.pc) && q.pool == p.pool && q.mem.key == p.mem.key
      && q.mem.volume == p.mem.volume && q.mem.claim.annotations == p.mem.claim.annotations
  {
    if log != [] {
      PersistRun(p, log[..|log| - 1]);
    }
  }

  /** Persisting makes a replica available, or stops it being so, only through a
      phase annotation in the pool's template. */
  lemma PersistAvailability(pool: Pool, r: R.Replica, before: seq<Exchange>, after: seq<Exchange>)
    requires ReplicaAfter(R.Persisting(R.ReplicaProc(pool, R.Ready, r)), before, after).Some?
    ensures var q := ReplicaAfter(R.Persisting(R.ReplicaProc(pool, R.Ready, r)), before, after).value;
      R.Available(q.mem) <==> R.Available(R.Labelled(pool, r))
    ensures R.PHASE_KEY !in pool.spec.template.annotations ==>
      (R.Available(R.Labelled(pool, r)) <==> R.Available(r))
  {
    hide R.ReplayReplica;
    PersistRun(R.Persisting(R.ReplicaProc(pool, R.Ready, r)), after[|before|..]);
  }

  // ------------------------------------------------------------- configuration

  method IndexVolumeByName(vols: seq<JobVolume>, name: string) returns (i: int)
    ensures i == R.IndexOf(vols, name)
  {
    i := 0;
    while i < |vols|
      invariant 0 <= i <= |vols|
      invariant forall j | 0 <= j < i :: vols[j].name != name
    {
      if vols[i].name == name {
        return i;
      }
      i := i + 1;
    }
    return -1;
  }

  /** The limits, and the replica's claim mounted under the asked name. */
  method ConfigureJob(pr: PoolReplica)
    modifies pr`job
    ensures var spec := if pr.pool.spec.initJob.Some? then pr.pool.spec.initJob.value.spec else R.DEFAULT_JOB_SPEC;
      var mount := if pr.pool.spec.initJob.Some? then pr.pool.spec.initJob.value.volumeName else R.DEFAULT_JOB_VOLUME;
      pr.job == old(pr.job).(spec := R.ConfiguredJobSpec(spec, mount, pr.key.name))
  {
    var volumeName := R.DEFAULT_JOB_VOLUME;
    var spec := R.DEFAULT_JOB_SPEC;
    if pr.pool.spec.initJob.Some? {
      spec := pr.pool.spec.initJob.value.spec;
      volumeName := pr.pool.spec.initJob.value.volumeName;
    }
    if spec.restartPolicy == "" {
      spec := spec.(restartPolicy := R.RESTART_POLICY);
    }
    if spec.activeDeadlineSeconds.None? || spec.activeDeadlineSeconds.value > R.MAX_ACTIVE_DEADLINE_SECONDS {
      spec := spec.(activeDeadlineSeconds := Some(R.MAX_ACTIVE_DEADLINE_SECONDS));
    }
    if spec.backoffLimit.Some? && spec.backoffLimit.value > R.MAX_BACKOFF_LIMIT {
      spec := spec.(backoffLimit := Some(R.MAX_BACKOFF_LIMIT));
    }
    var vols := spec.volumes;
    var i := IndexVolumeByName(vols, volumeName);
    if i < 0 {
      i := |vols|;
      vols := vols + [JobVolume(volumeName, None)];
    }
    vols := vols[i := vols[i].(claimName := Some(pr.key.name))];
    pr.job := pr.job.(spec := spec.(volumes := vols));
  }

  /** A replica that is neither stale nor available is marked as what it is, with a
      claim yet to be written asking for what the template says, and with a job that
      has not succeeded being the one the pool asks for. */
  method ConfigurePoolReplica(pr: PoolReplica)
    modifies pr`claim, pr`job
    ensures pr.State() == R.ConfiguredReplica(pr.pool.spec, old(pr.State()))
    ensures old(pr.Stale() || pr.Available()) ==> pr.State() == old(pr.State())
    ensures old(!pr.Stale() && !pr.Available()) ==>
      var (c, j, done) := (old(pr.claim), old(pr.job), old(pr.job.outcome) == Succeeded);
      && pr.claim == c.(
           spec := pr.claim.spec,
           annotations := c.annotations[R.PHASE_KEY := if done then R.AVAILABLE else R.INITIALIZING])
      && pr.job == j.(spec := pr.job.spec)
      && (if c.phase == NoPhase then R.AsksAsTold(pr.pool.spec.template.spec, pr.claim.spec) else pr.claim.spec == c.spec)
      && (if done then pr.job.spec == j.spec else R.RunsAsAsked(pr.pool.spec, pr.key.name, pr.job.spec))
  {
    ghost var was := pr.State();
    if pr.Stale() || pr.Available() {
      return;
    }
    if pr.claim.phase != Pending && pr.claim.phase != Bound {
      var spec := pr.pool.spec.template.spec;
      if spec.storageClass == Some("") {
        spec := spec.(storageClass := None);
      }
      spec := spec.(selector := None, volumeName := None);
      if |spec.accessModes| == 0 {
        spec := spec.(accessModes := [ReadWriteOnce]);
      }
      pr.claim := pr.claim.(spec := spec);
    }
    if pr.job.outcome != Succeeded {
      ConfigureJob(pr);
      pr.claim := pr.claim.(annotations := pr.claim.annotations[R.PHASE_KEY := R.INITIALIZING]);
    } else {
      pr.claim := pr.claim.(annotations := pr.claim.annotations[R.PHASE_KEY := R.AVAILABLE]);
    }
    R.ConfiguredAsAsked(pr.pool.spec, was);
  }

  // ------------------------------------------------------------ a new replica

  /** Loading found neither a job nor a claim. */
  ghost predicate FoundNothing(before: seq<Exchange>, after: seq<Exchange>) {
    && |before| + 2 <= |after|
    && after[|before|].resp == GotJob(None) && after[|before| + 1].resp == GotClaim(None)
  }

  /** A replica that was just created: a pending claim that asks for what the template
      says, the pool's own and labelled and annotated as its template is, and an init
      job of its own that has not finished and is the one the pool asks for. */
  predicate JustCreated(pool: Pool, r: R.Replica) {
    && !R.Stale(r) && !R.Available(r)
    && r.claim.uid != 0 && r.claim.phase == Pending && !r.claim.deleting && r.volume == None
    && r.claim.controller == Some(PoolOwner(pool.uid))
    && r.claim.labels == pool.spec.template.labels
    && Bears(r.claim.annotations, pool.spec.template.annotations)
    && R.PHASE_KEY in r.claim.annotations
    && (R.PHASE_KEY !in pool.spec.template.annotations ==> r.claim.annotations[R.PHASE_KEY] == R.INITIALIZING)
    && R.AsksAsTold(pool.spec.template.spec, r.claim.spec)
    && r.job.uid != 0 && r.job.outcome == Running && r.job.owner == r.claim.uid
    && R.AskedFor(pool.spec, r.key.name, r.job)
  }

  /** What loading leaves behind when there was nothing to load. */
  lemma {:induction false} LoadedNothing(pool: Pool, k: Key, log: seq<Exchange>)
    requires |log| >= 2 && log[0].resp == GotJob(None) && log[1].resp == GotClaim(None)
    requires R.ReplayReplica(R.StartReplica(pool, k), log).Some?
    ensures |log| == 2 && R.ReplayReplica(R.StartReplica(pool, k), log).value == R.StartReplica(pool, k).(pc := R.Gone)
  {
    hide Kube.Fits;
    var p := R.StartReplica(pool, k);
    if |log| > 2 {
      LoadedNothing(pool, k, log[..|log| - 1]);
    } else {
      assert log == [log[0], log[1]] && log[..1] == [log[0]] && log[..1][..0] == [];
      assert R.ReplayReplica(p, log[..1]) == Some(p.(pc := R.LoadClaim));
    }
  }

  /** Creating: the claim and then the job are stored as they were sent. */
  lemma {:induction false} CreationRun(p: R.ReplicaProc, log: seq<Exchange>)
    requires p.pc == R.PersistClaim && !R.Available(p.mem) && p.mem.job.uid == 0 && p.mem.claim.uid == 0
    requires R.ReplayReplica(p, log).Some?
    ensures var q := R.ReplayReplica(p, log).value;
      && (q.pc == R.PersistClaim ==> q == p)
      && (q.pc == R.PersistJob || q.pc == R.Ready ==>
            && q.mem.claim.uid != 0 && q.mem.claim.phase == Pending && !q.mem.claim.deleting
            && q.mem.claim.controller == p.mem.claim.controller && q.mem.claim.labels == p.mem.claim.labels
            && q.mem.claim.annotations == p.mem.claim.annotations
            && q.mem.claim.spec == p.mem.claim.spec && q.mem.volume == p.mem.volume)
      && q.mem.key == p.mem.key
      && (q.pc == R.PersistJob ==> q.mem.job == p.mem.job.(owner := q.mem.claim.uid))
      && (q.pc == R.Ready ==>
            && q.mem.job.uid != 0
            && q.mem.job == p.mem.job.(uid := q.mem.job.uid, owner := q.mem.claim.uid, outcome := Running))
      && (q.pc == R.PersistClaim || q.pc == R.PersistJob || q.pc == R.Ready || q.pc == R.Broken)
  {
    if log != [] {
      CreationRun(p, log[..|log| - 1]);
    }
  }

  /** What loading nothing, configuring and a complete persist leave is such a replica. */
  lemma CreatedWell(pool: Pool, k: Key, l0: seq<Exchange>, l1: seq<Exchange>, l2: seq<Exchange>, r: R.Replica)
    requires l0 <= l1 <= l2 && FoundNothing(l0, l2) && |l0| + 2 <= |l1|
    requires ReplicaAfter(R.StartReplica(pool, k), l0, l1).Some?
    requires var loaded := ReplicaAfter(R.StartReplica(pool, k), l0, l1).value.mem;
      var p := R.Persisting(R.ReplicaProc(pool, R.Ready, R.ConfiguredReplica(pool.spec, loaded)));
      && ReplicaAfter(p, l1, l2).Some? && ReplicaAfter(p, l1, l2).value.pc == R.Ready
      && r == ReplicaAfter(p, l1, l2).value.mem
    ensures r.key == k && JustCreated(pool, r)
  {
    hide R.ReplayReplica;
    assert l1[|l0|..][0] == l2[|l0|] && l1[|l0|..][1] == l2[|l0| + 1];
    LoadedNothing(pool, k, l1[|l0|..]);
    R.NewConfigured(pool, k);
    var r0 := R.ConfiguredReplica(pool.spec, R.NewReplica(k));
    hide R.ConfiguredReplica;
    R.NewPersisting(pool, r0);
    var p := R.Persisting(R.ReplicaProc(pool, R.Ready, r0));
    hide R.Persisting;
    CreationRun(p, l2[|l1|..]);
  }

  predicate Sending(pc: R.ReplicaPc) {
    pc == R.PersistDropJob || pc == R.PersistClaim || pc == R.Broken
  }

  /** Until a job is sent what is held is what was held at first. */
  lemma {:induction false} JobHeld(p: R.ReplicaProc, log: seq<Exchange>)
    requires Sending(p.pc) && R.ReplayReplica(p, log).Some?
    ensures var q := R.ReplayReplica(p, log).value;
      && PersistPc(q.pc) && q.mem.key == p.mem.key
      && (q.pc == R.PersistDropJob || q.pc == R.PersistClaim ==> q.mem == p.mem)
      && (q.pc == R.PersistJob ==>
            p.mem.job.uid == 0 && !R.Available(p.mem) && q.mem.job == p.mem.job.(owner := q.mem.job.owner))
      && (p.pc == R.Broken ==> log == [])
  {
    hide R.Available, Kube.Fits;
    if log != [] {
      JobHeld(p, log[..|log| - 1]);
    }
  }

  /** Persisting sends no job but the one held, and that only if none was loaded. */
  lemma JobSent(p: R.ReplicaProc, log: seq<Exchange>, i: nat)
    requires Sending(p.pc) && R.ReplayReplica(p, log).Some? && i < |log| && log[i].req.PutJob?
    ensures p.pc != R.Broken && p.mem.job.uid == 0 && !R.Available(p.mem) && log[i].req.key == p.mem.key
    ensures log[i].req.job == p.mem.job.(owner := log[i].req.job.owner)
    decreases |log|
  {
    var n := |log| - 1;
    if i < n {
      JobSent(p, log[..n], i);
    } else {
      hide R.Available, R.ResumeReplica, Kube.Fits;
      JobHeld(p, log[..n]);
    }
  }

  /** Whenever a replica that is initializing is persisted, every init job that is sent
      to the server is the one its pool asks for. */
  lemma JobsAsAsked(pool: Pool, r: R.Replica, log: seq<Exchange>)
    requires !R.Stale(r) && !R.Available(r) && (r.job.uid == 0 ==> r.job == NEW_JOB)
    requires R.ReplayReplica(R.Persisting(R.ReplicaProc(pool, R.Ready, R.ConfiguredReplica(pool.spec, r))), log).Some?
    ensures forall i | 0 <= i < |log| && log[i].req.PutJob? ::
      log[i].req.key == r.key && R.AskedFor(pool.spec, r.key.name, log[i].req.job)
  {
    hide R.ReplayReplica, R.ConfiguredReplica, R.Persisting, R.RunsAsAsked, R.AsksAsTold, R.Stale, R.Available;
    var c := R.ConfiguredReplica(pool.spec, r);
    R.ConfiguredAsAsked(pool.spec, r);
    R.SentJob(pool, c);
    forall i: nat | i < |log| && log[i].req.PutJob?
      ensures var (p, sent) := (R.Persisting(R.ReplicaProc(pool, R.Ready, c)), log[i].req);
        && p.pc != R.Broken && p.mem.job.uid == 0 && !R.Available(p.mem)
        && sent.key == p.mem.key && sent.job == p.mem.job.(owner := sent.job.owner)
    {
      JobSent(R.Persisting(R.ReplicaProc(pool, R.Ready, c)), log, i);
    }
  }

  /** The name of a replica: the pool's name with the id as suffix. */
  function ReplicaKey(pool: Pool, id: string): Key {
    Key(pool.key.namespace, pool.key.name + "-" + id)
  }

  /** Another id makes another name, in the namespace in which the pool lists. */
  lemma KeysDiffer(pool: Pool, a: string, b: string)
    ensures ReplicaKey(pool, a).namespace == pool.key.namespace
    ensures ReplicaKey(pool, a) == ReplicaKey(pool, b) <==> a == b
  {
    var n := |pool.key.name| + 1;
    assert (pool.key.name + "-" + a)[n..] == a && (pool.key.name + "-" + b)[n..] == b;
  }

  /** The replica is loaded until `mid`, then configured whether or not there was
      one, then persisted. */
  ghost predicate Applied(pool: Pool, k: Key, before: seq<Exchange>, mid: seq<Exchange>, now: seq<Exchange>,
                          r: R.Replica, failed: bool) {
    var l := ReplicaAfter(R.StartReplica(pool, k), before, mid);
    && l.Some?
    && if !R.Idle(l.value) then failed && l.value.pc == R.Broken && mid == now
       else
         var start := R.ReplicaProc(pool, R.Ready, R.ConfiguredReplica(pool.spec, l.value.mem));
         var q := ReplicaAfter(R.Persisting(start), mid, now);
         && q.Some? && q.value.mem == r
         && q.value.pc == if failed then R.Broken else R.Ready
  }

  /** Creates a replica, or takes over the one there is under that name. */
  method ApplyPoolReplica(api: Client, pool: Pool, id: string, ghost book: Ledger)
    returns (pr: PoolReplica, err: Option<Failure>, ghost mid: seq<Exchange>)
    modifies book`persisted, api`calls, api`log
    ensures fresh(pr) && pr.pool == pool && pr.key == ReplicaKey(pool, id)
    ensures Applied(pool, pr.key, old(api.log), mid, api.log, pr.State(), err.Some?)
    ensures old(api.log) <= api.log
    ensures err.None? && FoundNothing(old(api.log), api.log) ==> JustCreated(pool, pr.State())
  {
    hide R.ReplayReplica, R.ConfiguredReplica, R.Persisting;
    ghost var l0 := api.log;
    pr := new PoolReplica(pool, ReplicaKey(pool, id));
    assert pr.At(R.LoadJob) == R.StartReplica(pool, pr.key);
    var ok;
    ok, err := pr.Load(api);
    ghost var l1 := api.log;
    mid := l1;
    if err.Some? {
      return;
    }
    ConfigurePoolReplica(pr);
    err := pr.Persist(api, book);
    if err.None? && FoundNothing(l0, api.log) {
      LoadedLength(R.StartReplica(pool, pr.key), l1[|l0|..]);
      CreatedWell(pool, pr.key, l0, l1, api.log, pr.State());
    }
  }

  /** Loading takes at least two calls. */
  lemma LoadedLength(p: R.ReplicaProc, log: seq<Exchange>)
    requires p.pc == R.LoadJob && R.ReplayReplica(p, log).Some?
    ensures R.Idle(R.ReplayReplica(p, log).value) ==> |log| >= 2
  {
    hide Kube.Fits;
    if |log| == 1 {
      assert R.ReplayReplica(p, log[..0]) == Some(p);
    }
  }

  // ------------------------------------------------------------- lists of them

  function States(prs: seq<PoolReplica>): seq<R.Replica>
    reads prs
  {
    seq(|prs|, i requires 0 <= i < |prs| reads prs => prs[i].State())
  }

  /** Created no later than. */
  predicate NoLater(a: PoolReplica, b: PoolReplica)
    reads a, b
  {
    a.claim.created <= b.claim.created
  }

  class PoolReplicas {
    var items: seq<PoolReplica>

    constructor ()
      ensures items == []
    {
      items := [];
    }

    ghost function Members(): set<PoolReplica>
      reads this
    {
      set pr | pr in items
    }

    method Append(pr: PoolReplica)
      modifies this
      ensures items == old(items) + [pr]
    {
      items := items + [pr];
    }

    /** Takes a random replica out by putting the last one in its place. */
    method Pop(rng: Rng) returns (pr: PoolReplica?, found: bool, err: Option<Failure>)
      modifies this, rng
      ensures !found ==> items == old(items)
      ensures found <==> pr != null
      ensures found ==> pr in old(items)
      ensures found ==> err.None? && |items| == |old(items)| - 1 && multiset(items) + multiset{pr} == multiset(old(items))
      ensures err.None? && !found ==> items == []
      ensures rng.Reliable() ==> err.None?
    {
      var n := |items|;
      if n == 0 {
        return null, false, None;
      }
      var i;
      i, err := rng.Uint64N(n);
      if err.Some? {
        return null, false, err;
      }
      pr, found := items[i], true;
      RemovedAt(items, i);
      items := items[i := items[n - 1]][..n - 1];
    }

    /** Removes the replica at i by putting the last one in its place. */
    method SwapRemove(i: nat)
      requires i < |items|
      modifies this
      ensures items == old(items[i := items[|items| - 1]][..|items| - 1])
      ensures multiset(items) + multiset{old(items[i])} == multiset(old(items))
    {
      RemovedAt(items, i);
      items := items[i := items[|items| - 1]][..|items| - 1];
    }

    /** Sorts by creation time, oldest first. */
    method SortByCreation()
      modifies this
      ensures multiset(items) == multiset(old(items))
      ensures forall i, j | 0 <= i < j < |items| :: NoLater(items[i], items[j])
    {
      var s, i := items, 0;
      while i < |s|
        invariant i <= |s| == |items| && multiset(s) == multiset(items)
        invariant forall a, b | 0 <= a < b < i :: NoLater(s[a], s[b])
      {
        var j := i;
        while j > 0 && !NoLater(s[j - 1], s[j])
          invariant j <= i < |s| == |items| && multiset(s) == multiset(items)
          invariant forall a, b | 0 <= a < b <= i && b != j :: NoLater(s[a], s[b])
          invariant forall b | j < b <= i :: NoLater(s[j], s[b])
        {
          s := s[j := s[j - 1]][j - 1 := s[j]];
          j := j - 1;
        }
        i := i + 1;
      }
      items := s;
    }
  }

  lemma RemovedAt<T>(s: seq<T>, i: nat)
    requires i < |s|
    ensures var n := |s| - 1;
      multiset(s[i := s[n]][..n]) + multiset{s[i]} == multiset(s)
  {
    var n := |s| - 1;
    var t := s[i := s[n]];
    assert s == s[..n] + [s[n]];
    assert t == t[..n] + [t[n]];
    if i < n {
      assert t == s[i := s[n]];
      assert multiset(t) == multiset(s) - multiset{s[i]} + multiset{s[n]};
    } else {
      assert t[..n] == s[..n];
    }
  }
}
