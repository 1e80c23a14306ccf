/** One replica of a pool: its claim, the volume bound to it and its init job,
    and the automaton of API calls by which a pool controller (or a checkout
    looking into the pool) loads, persists and deletes it. */
module Replica {
  import opened Labels
  import opened Kube

  const PHASE_KEY := "pvpool.puppet.com/replica.phase"
  const INITIALIZING := "Initializing"
  const AVAILABLE := "Available"

  const MAX_ACTIVE_DEADLINE_SECONDS := 300
  const MAX_BACKOFF_LIMIT := 10
  const RESTART_POLICY := "Never"
  const DEFAULT_JOB_VOLUME := "workspace"
  const DEFAULT_JOB_SPEC := JobSpec("", None, Some(MAX_BACKOFF_LIMIT), [])

  datatype Replica = Replica(key: Key, claim: Claim, volume: Option<NamedVolume>, job: Job)

  function NewReplica(k: Key): Replica {
    Replica(k, NEW_CLAIM, None, NEW_JOB)
  }

  predicate Marked(annotations: LabelMap) {
    PHASE_KEY in annotations && annotations[PHASE_KEY] == AVAILABLE
  }

  predicate Stale(r: Replica) {
    r.claim.deleting || r.claim.phase == Lost || r.job.outcome.Failed?
  }

  predicate Available(r: Replica) {
    r.volume.Some? && Marked(r.claim.annotations)
  }

  // ------------------------------------------------------------ configuration

  function IndexOf(vols: seq<JobVolume>, name: string): (i: int)
    ensures -1 <= i < |vols|
    ensures i >= 0 ==> vols[i].name == name && forall j | 0 <= j < i :: vols[j].name != name
    ensures i < 0 ==> forall j | 0 <= j < |vols| :: vols[j].name != name
  {
    if vols == [] then -1
    else if vols[0].name == name then 0
    else
      var i := IndexOf(vols[1..], name);
      if i < 0 then -1 else i + 1
  }

  function Mounted(vols: seq<JobVolume>, name: string, claimName: string): seq<JobVolume> {
    var i := IndexOf(vols, name);
    if i < 0 then vols + [JobVolume(name, Some(claimName))]
    else vols[i := JobVolume(name, Some(claimName))]
  }

  function ConfiguredJobSpec(t: JobSpec, volumeName: string, claimName: string): JobSpec {
    JobSpec(
      if t.restartPolicy == "" then RESTART_POLICY else t.restartPolicy,
      if t.activeDeadlineSeconds.None? || t.activeDeadlineSeconds.value > MAX_ACTIVE_DEADLINE_SECONDS
      then Some(MAX_ACTIVE_DEADLINE_SECONDS) else t.activeDeadlineSeconds,
      if t.backoffLimit.Some? && t.backoffLimit.value > MAX_BACKOFF_LIMIT
      then Some(MAX_BACKOFF_LIMIT) else t.backoffLimit,
      Mounted(t.volumes, volumeName, claimName))
  }

  /** The claim spec that asks for a freshly provisioned volume. */
  function ProvisioningSpec(t: ClaimSpec): ClaimSpec {
    ClaimSpec(
      None,
      if t.storageClass == Some("") then None else t.storageClass,
      if t.accessModes == [] then [ReadWriteOnce] else t.accessModes,
      t.request,
      None)
  }

  function ConfiguredReplica(pool: PoolSpec, r: Replica): Replica {
    if Stale(r) || Available(r) then r
    else
      var claim :=
        if r.claim.phase != Pending && r.claim.phase != Bound
        then r.claim.(spec := ProvisioningSpec(pool.template.spec)) else r.claim;
      if r.job.outcome != Succeeded then
        var spec := if pool.initJob.Some? then pool.initJob.value.spec else DEFAULT_JOB_SPEC;
        var mount := if pool.initJob.Some? then pool.initJob.value.volumeName else DEFAULT_JOB_VOLUME;
        r.(claim := claim.(annotations := claim.annotations[PHASE_KEY := INITIALIZING]),
           job := r.job.(spec := ConfiguredJobSpec(spec, mount, r.key.name)))
      else
        r.(claim := claim.(annotations := claim.annotations[PHASE_KEY := AVAILABLE]))
  }

  /** The init job runs as its pool asks, which need not ask for anything: within 300
      seconds and 10 retries, never restarted unless it says so, with its volumes as
      they are but for the one of the given name, or one more, which is the claim. */
  predicate RunsAsAsked(pool: PoolSpec, claimName: string, s: JobSpec) {
    var (a, name) :=
      if pool.initJob.Some? then (pool.initJob.value.spec, pool.initJob.value.volumeName)
      else (JobSpec("", None, Some(10), []), "workspace");
    && s.restartPolicy == (if a.restartPolicy == "" then "Never" else a.restartPolicy)
    && s.activeDeadlineSeconds.Some?
    && s.activeDeadlineSeconds.value
         == (if a.activeDeadlineSeconds.Some? && a.activeDeadlineSeconds.value < 300 then a.activeDeadlineSeconds.value else 300)
    && s.backoffLimit.Some? == a.backoffLimit.Some?
    && (s.backoffLimit.Some? ==> s.backoffLimit.value == if a.backoffLimit.value < 10 then a.backoffLimit.value else 10)
    && MountedAmong(a.volumes, name, claimName, s.volumes)
  }

  /** j is the init job that the pool asks for. */
  predicate AskedFor(pool: PoolSpec, claimName: string, j: Job) {
    && j.labels == (if pool.initJob.Some? then pool.initJob.value.labels else map[])
    && j.annotations == (if pool.initJob.Some? then pool.initJob.value.annotations else map[])
    && RunsAsAsked(pool, claimName, j.spec)
  }

  /** The first volume of that name, or else one more at the end, is the claim; the
      others are as they were. */
  predicate MountedAmong(was: seq<JobVolume>, name: string, claimName: string, now: seq<JobVolume>) {
    var at := if IndexOf(was, name) < 0 then |was| else IndexOf(was, name);
    && |now| == (if at == |was| then |was| + 1 else |was|)
    && now[at].name == name && now[at].claimName == Some(claimName)
    && forall i | 0 <= i < |was| && i != at :: now[i] == was[i]
  }

  /** The claim asks for a volume to be provisioned as the template says, with one
      access mode if it says none, and never for one that is there. */
  predicate AsksAsTold(t: ClaimSpec, s: ClaimSpec) {
    && s.volumeName == None && s.selector == None
    && s.request == t.request
    && (if t.storageClass == Some("") then s.storageClass == None else s.storageClass == t.storageClass)
    && (if t.accessModes == [] then s.accessModes == [ReadWriteOnce] else s.accessModes == t.accessModes)
  }

  /** Of a replica that is neither stale nor available, what a configured job runs and
      a configured claim asks for, as far as they are yet to be written. */
  lemma ConfiguredAsAsked(pool: PoolSpec, r: Replica)
    requires !Stale(r) && !Available(r)
    ensures var c := ConfiguredReplica(pool, r);
      && c.key == r.key && c.volume == r.volume && c.job == r.job.(spec := c.job.spec)
      && c.claim == r.claim.(spec := c.claim.spec, annotations := c.claim.annotations)
      && (if r.job.outcome == Succeeded then c.job.spec == r.job.spec else RunsAsAsked(pool, r.key.name, c.job.spec))
      && (if r.claim.phase == NoPhase then AsksAsTold(pool.template.spec, c.claim.spec) else c.claim.spec == r.claim.spec)
      && c.claim.annotations
           == r.claim.annotations[PHASE_KEY := if r.job.outcome == Succeeded then AVAILABLE else INITIALIZING]
  {
    hide IndexOf;
  }

  /** An init job never outlives the controller's limits, mounts the replica's
      claim under the asked name and leaves every other volume alone. */
  lemma JobWithinLimits(t: JobSpec, volumeName: string, claimName: string)
    ensures var s := ConfiguredJobSpec(t, volumeName, claimName);
      && s.activeDeadlineSeconds.Some? && s.activeDeadlineSeconds.value <= MAX_ACTIVE_DEADLINE_SECONDS
      && (s.backoffLimit.Some? ==> s.backoffLimit.value <= MAX_BACKOFF_LIMIT)
      && s.restartPolicy != ""
      && IndexOf(s.volumes, volumeName) >= 0
      && s.volumes[IndexOf(s.volumes, volumeName)].claimName == Some(claimName)
      && |t.volumes| <= |s.volumes|
      && (forall i | 0 <= i < |t.volumes| && i != IndexOf(s.volumes, volumeName) :: s.volumes[i] == t.volumes[i])
  {
    MountedAt(t.volumes, volumeName, claimName);
  }

  lemma {:induction false} MountedAt(vols: seq<JobVolume>, name: string, claimName: string)
    ensures IndexOf(Mounted(vols, name, claimName), name)
         == if IndexOf(vols, name) < 0 then |vols| else IndexOf(vols, name)
  {
    if vols == [] || vols[0].name == name {
    } else {
      MountedAt(vols[1..], name, claimName);
      assert Mounted(vols, name, claimName)[1..] == Mounted(vols[1..], name, claimName);
    }
  }

  // ----------------------------------------------------------------- automaton

  datatype ReplicaPc =
    | LoadJob | LoadClaim | LoadVolume
    | Ready                                   // loaded, and still there
    | Gone                                    // not there, or its volume belongs to somebody else
    | PersistDropJob | PersistClaim | PersistJob
    | DeleteJob | DeleteClaim
    | Deleted
    | Broken                                  // a call failed; the caller gives up

  datatype ReplicaProc = ReplicaProc(pool: Pool, pc: ReplicaPc, mem: Replica)

  function StartReplica(pool: Pool, k: Key): ReplicaProc {
    ReplicaProc(pool, LoadJob, NewReplica(k))
  }

  predicate Idle(p: ReplicaProc) {
    p.pc == Ready || p.pc == Gone
  }

  /** Own fails on an object controlled by somebody else. */
  predicate MayOwn(p: ReplicaProc) {
    p.mem.claim.controller == None || p.mem.claim.controller == Some(PoolOwner(p.pool.uid))
  }

  function Labelled(pool: Pool, r: Replica): Replica {
    r.(claim := r.claim.(
         labels := Overlay(r.claim.labels, pool.spec.template.labels),
         annotations := Overlay(r.claim.annotations, pool.spec.template.annotations)))
  }

  function JobLabelled(pool: Pool, j: Job): Job {
    if pool.spec.initJob.Some? then
      j.(labels := Overlay(j.labels, pool.spec.initJob.value.labels),
         annotations := Overlay(j.annotations, pool.spec.initJob.value.annotations))
    else j
  }

  function Persisting(p: ReplicaProc): ReplicaProc {
    var m := Labelled(p.pool, p.mem);
    if !MayOwn(p) then p.(pc := Broken, mem := m)
    else
      var owned := m.(claim := m.claim.(controller := Some(PoolOwner(p.pool.uid))));
      if Available(owned) && owned.job.uid != 0 then p.(pc := PersistDropJob, mem := owned)
      else if Available(owned) || owned.job.uid != 0 then p.(pc := PersistClaim, mem := owned)
      else p.(pc := PersistClaim, mem := owned.(job := JobLabelled(p.pool, owned.job)))
  }

  /** What a controller that may own the replica is about to write: the claim as it
      was read, labelled, annotated and the pool's own. */
  lemma PersistingSame(p: ReplicaProc)
    requires MayOwn(p)
    ensures var q := Persisting(p);
      && (q.pc == PersistDropJob || q.pc == PersistClaim) && q.pool == p.pool
      && q.mem.claim == p.mem.claim.(
           labels := Overlay(p.mem.claim.labels, p.pool.spec.template.labels),
           annotations := q.mem.claim.annotations, controller := Some(PoolOwner(p.pool.uid)))
      && q.mem.key == p.mem.key && q.mem.volume == p.mem.volume && q.mem.job.uid == p.mem.job.uid
      && (q.pc == PersistClaim && Available(q.mem) ==> q.mem.job.uid == 0)
  {
    hide Overlay, Marked;
  }

  /** A replica that is not there yet: what is configured for it, and what is written
      first. */
  lemma NewConfigured(pool: Pool, k: Key)
    ensures var r := ConfiguredReplica(pool.spec, NewReplica(k));
      && r.key == k && AsksAsTold(pool.spec.template.spec, r.claim.spec) && r.claim.labels == map[]
      && RunsAsAsked(pool.spec, k.name, r.job.spec) && r.job.labels == map[] && r.job.annotations == map[]
      && r.claim.annotations == map[PHASE_KEY := INITIALIZING]
      && r.claim.controller == None && r.claim.uid == 0 && r.job.uid == 0 && r.job.outcome == Running && r.volume == None
  {
    ConfiguredAsAsked(pool.spec, NewReplica(k));
    hide RunsAsAsked, AsksAsTold, ConfiguredJobSpec;
  }

  lemma NewPersisting(pool: Pool, r: Replica)
    requires r.claim.labels == map[] && r.claim.controller == None && r.claim.uid == 0 && r.job.uid == 0 && r.volume == None
    requires r.job.labels == map[] && r.job.annotations == map[]
    ensures var p := Persisting(ReplicaProc(pool, Ready, r));
      && p.pc == PersistClaim && !Available(p.mem) && p.mem.job.uid == 0 && p.mem.claim.uid == 0 && p.mem.volume == None
      && p.mem.claim.labels == pool.spec.template.labels && p.mem.claim.controller == Some(PoolOwner(pool.uid))
      && p.mem.key == r.key && p.mem.claim.spec == r.claim.spec
      && p.mem.job == r.job.(labels := p.mem.job.labels, annotations := p.mem.job.annotations)
      && p.mem.claim.annotations == Overlay(r.claim.annotations, pool.spec.template.annotations)
      && p.mem.job.labels == (if pool.spec.initJob.Some? then pool.spec.initJob.value.labels else map[])
      && p.mem.job.annotations == (if pool.spec.initJob.Some? then pool.spec.initJob.value.annotations else map[])
  {
    FromNone(pool.spec.template.labels);
    if pool.spec.initJob.Some? {
      FromNone(pool.spec.initJob.value.labels);
      FromNone(pool.spec.initJob.value.annotations);
    }
    hide Overlay;
  }

  /** Of a job that was not loaded, what persisting is about to write, if it writes it. */
  lemma SentJob(pool: Pool, c: Replica)
    ensures var p := Persisting(ReplicaProc(pool, Ready, c));
      && (p.pc == PersistDropJob || p.pc == PersistClaim || p.pc == Broken)
      && p.mem.key == c.key && p.mem.job.uid == c.job.uid && p.mem.job.spec == c.job.spec
      && (p.pc != Broken && !Available(p.mem) && c.job.uid == 0 && c.job.labels == map[] && c.job.annotations == map[] ==>
            && p.mem.job.labels == (if pool.spec.initJob.Some? then pool.spec.initJob.value.labels else map[])
            && p.mem.job.annotations == (if pool.spec.initJob.Some? then pool.spec.initJob.value.annotations else map[]))
  {
    hide Overlay;
    if pool.spec.initJob.Some? {
      FromNone(pool.spec.initJob.value.labels);
      FromNone(pool.spec.initJob.value.annotations);
    }
  }

  lemma FromNone(m: LabelMap)
    ensures Overlay(map[], m) == m
  {
  }

  function Deleting(p: ReplicaProc): ReplicaProc {
    if p.mem.job.uid != 0 then p.(pc := DeleteJob)
    else if p.mem.claim.uid != 0 then p.(pc := DeleteClaim)
    else p.(pc := Deleted)
  }

  function NextReplicaCall(p: ReplicaProc): Option<Request> {
    match p.pc
    case LoadJob => Some(GetJob(p.mem.key))
    case LoadClaim => Some(GetClaim(p.mem.key))
    case LoadVolume => Some(GetVolume(p.mem.claim.spec.volumeName))
    case PersistDropJob => Some(DropJob(p.mem.key, p.mem.job.uid))
    case PersistClaim => Some(PutClaim(p.mem.key, p.mem.claim))
    case PersistJob => Some(PutJob(p.mem.key, p.mem.job))
    case DeleteJob => Some(DropJob(p.mem.key, p.mem.job.uid))
    case DeleteClaim => Some(DropClaim(p.mem.key, p.mem.claim.uid))
    case _ => None
  }

  /** What becomes of it with the answer to its call; an answer to another call
      breaks it. */
  function ResumeReplica(p: ReplicaProc, r: Response): ReplicaProc {
    match p.pc
    case LoadJob =>
      if !r.GotJob? then p.(pc := Broken)
      else p.(pc := LoadClaim, mem := if r.foundJob.Some? then p.mem.(job := r.foundJob.value) else p.mem)
    case LoadClaim =>
      if !r.GotClaim? then p.(pc := Broken)
      else if r.found.None? then p.(pc := Gone)
      else
        var c := r.found.value;
        p.(pc := if c.phase == Bound then LoadVolume else Ready, mem := p.mem.(claim := c))
    case LoadVolume =>
      if !r.GotVolume? then p.(pc := Broken)
      else if r.foundVolume.None? then p.(pc := Gone)
      else LoadedVolume(p, r.foundVolume.value)
    case PersistDropJob => p.(pc := if r.Dropped? then PersistClaim else Broken)
    case PersistClaim =>
      if !r.StoredClaim? then p.(pc := Broken)
      else if Available(p.mem) || p.mem.job.uid != 0 then p.(pc := Ready, mem := p.mem.(claim := r.claim))
      else p.(pc := PersistJob, mem := p.mem.(claim := r.claim, job := p.mem.job.(owner := r.claim.uid)))
    case PersistJob =>
      if r.StoredJob? then p.(pc := Ready, mem := p.mem.(job := r.job)) else p.(pc := Broken)
    case DeleteJob =>
      if !r.Dropped? then p.(pc := Broken)
      else p.(pc := if p.mem.claim.uid != 0 then DeleteClaim else Deleted)
    case DeleteClaim => p.(pc := if r.Dropped? then Deleted else Broken)
    case _ => p.(pc := Broken)
  }

  /** The volume that the claim is bound to counts only if it refers back to it. */
  function LoadedVolume(p: ReplicaProc, v: Volume): ReplicaProc {
    if v.spec.claimRef.None? || p.mem.claim.spec.volumeName.None? then p.(pc := Broken)
    else if v.spec.claimRef.value.uid != p.mem.claim.uid then p.(pc := Gone)
    else
      p.(pc := Ready, mem := p.mem.(volume := Some(NamedVolume(p.mem.claim.spec.volumeName.value, v))))
  }

  /** The automaton run over a list of exchanges, or None if some request was
      not the one the automaton makes next. */
  ghost function ReplayReplica(p: ReplicaProc, log: seq<Exchange>): Option<ReplicaProc> {
    if log == [] then Some(p)
    else
      var x := log[|log| - 1];
      var q := ReplayReplica(p, log[..|log| - 1]);
      if q.Some? && NextReplicaCall(q.value) == Some(x.req) && Fits(x.req, x.resp)
      then Some(ResumeReplica(q.value, x.resp)) else None
  }
}
