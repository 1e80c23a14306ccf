/** The whole system as a transition system.  One event is one API call of one
    controller, one step of a Kubernetes component, or one action of a user. */
module World {
  import opened Labels
  import opened Kube
  import opened Replica
  import opened Checkouts

  datatype CheckoutKeys = CheckoutKeys(locked: Key, claim: Key)

  /** How a volume was provisioned. */
  datatype Origin = Origin(
    claim: ClaimRef, policy: string, csi: bool, storageClass: string, capacity: nat, accessModes: seq<AccessMode>,
    labels: LabelMap, annotations: LabelMap)

  /** Which checkout took a pool volume, under which locked claim, from which pool,
      and the replica it was taken from as it was read. */
  datatype Taking = Taking(checkout: Uid, locked: Uid, pool: Uid, replica: Replica)

  /** Who was initialized.  `named` maps the UID of every claim that is no
      checkout's to the name it was created under; `ran` holds the UIDs of the claims
      whose own init job ended with success; `borrowed` maps the UID of a claim that
      was marked available although the job read with it was another claim's to the
      owner of that job. */
  datatype Inits = Inits(named: map<Uid, Key>, ran: set<Uid>, borrowed: map<Uid, Uid>)

  const NOBODY := Inits(map[], {}, map[])

  /** The cluster, what every running reconcile holds in memory, and history:
      `origin` and `taken` per provisioned volume, `owned` maps the UID of every
      claim a checkout wrote to that checkout, `inits` says who was initialized,
      `destroyed` is the storage that is gone. */
  datatype World = World(
    cluster: Cluster,
    checkouts: map<Uid, CheckoutKeys>,
    procs: map<Uid, Proc>,
    replicas: map<nat, ReplicaProc>,
    origin: map<Uid, Origin>,
    taken: map<Uid, Taking>,
    owned: map<Uid, Uid>,
    inits: Inits,
    destroyed: set<nat>)

  datatype Event =
    // one reconcile of a checkout: start (again), next API call, choice, crash
    | Begin(c: Uid, pool: Key, accessModes: seq<AccessMode>)
    | Advance(c: Uid, fault: Option<ApiError>, listing: seq<Key>)
    | Choose(c: Uid, i: nat)
    | Crash(c: Uid)
    // one replica in the hands of a pool reconcile
    | BeginReplica(id: nat, owner: Pool, key: Key)
    | AdvanceReplica(id: nat, fault: Option<ApiError>)
    | ConfigureReplica(id: nat)
    | PersistReplica(id: nat)
    | DeleteReplica(id: nat)
    | CrashReplica(id: nat)
    // Kubernetes
    | Provision(key: Key, spec: VolumeSpec, labels: LabelMap, annotations: LabelMap)
    | Bind(key: Key, volume: VolumeName)
    | MarkLost(key: Key)
    | Reclaim(volume: VolumeName)
    | FinalizeClaim(key: Key)
    | FinalizeVolume(volume: VolumeName)
    | EndJob(key: Key, outcome: JobOutcome)
    | CollectJob(key: Key)
    // users
    | CreateClaim(key: Key, claim: Claim)
    | EditClaim(key: Key, claim: Claim)
    | RemoveClaim(key: Key)
    | PutPool(key: Key, newPool: Pool)
    | RemovePool(key: Key)

  // ------------------------------------------------------------------ queries

  /** The checkout's own locked claim exists. */
  predicate HasLocked(w: World, c: Uid) {
    && c in w.checkouts
    && w.checkouts[c].locked in w.cluster.claims
    && w.cluster.claims[w.checkouts[c].locked].controller == Some(CheckoutOwner(c))
  }

  function LockedClaim(w: World, c: Uid): Claim
    requires HasLocked(w, c)
  {
    w.cluster.claims[w.checkouts[c].locked]
  }

  /** The checkout's own final claim exists. */
  predicate HasFinal(w: World, c: Uid) {
    && c in w.checkouts
    && w.checkouts[c].claim in w.cluster.claims
    && w.cluster.claims[w.checkouts[c].claim].controller == Some(CheckoutOwner(c))
  }

  function FinalClaim(w: World, c: Uid): Claim
    requires HasFinal(w, c)
  {
    w.cluster.claims[w.checkouts[c].claim]
  }

  predicate LiveUid(s: Cluster, uid: Uid) {
    exists k :: k in s.claims && s.claims[k].uid == uid
  }

  const NOBODYS := Pool(Key("", ""), 0, PoolSpec(None, Selector(map[], []), Template(map[], map[], EMPTY_CLAIM_SPEC), None))

  /** What a pool's controller holds of replica id; of none, what it would start with. */
  function Mem(w: World, id: nat): ReplicaProc {
    if id in w.replicas then w.replicas[id] else StartReplica(NOBODYS, NOBODYS.key)
  }

  // -------------------------------------------------------------- controllers

  /** History kept at a checkout's successful write. */
  function Recorded(w: World, p: Proc, r: Response): World {
    if r.StoredClaim? && (p.pc == WriteLocked || p.pc == WriteFinal) then
      w.(owned := w.owned[r.claim.uid := p.checkout.uid])
    else if r.StoredVolume? && p.pc == WriteLockedVolume && r.volume.uid !in w.taken && p.source.Some? then
      w.(taken := w.taken[r.volume.uid := Taking(p.checkout.uid, p.mem.locked.uid, p.scan.pool.uid, p.source.value)])
    else w
  }

  function Called(w: World, req: Request, fault: Option<ApiError>, listing: seq<Key>): (Cluster, Response) {
    if fault.Some? then (w.cluster, Refused(fault.value)) else Serve(w.cluster, req, listing)
  }

  function StepAdvance(w: World, c: Uid, fault: Option<ApiError>, listing: seq<Key>): World {
    if c !in w.procs || NextCall(w.procs[c]).None? then w
    else
      var p := w.procs[c];
      var (s, r) := Called(w, NextCall(p).value, fault, listing);
      Recorded(w, p, r).(cluster := s, procs := w.procs[c := Resume(p, r)])
  }

  function StepChoose(w: World, c: Uid, i: nat): World {
    if c in w.procs && w.procs[c].pc == Choosing && Oldest(w.procs[c].scan.available, i)
    then w.(procs := w.procs[c := Chosen(w.procs[c], i)]) else w
  }

  /** The claim at k is marked available. */
  predicate MarkedAt(s: Cluster, k: Key) {
    k in s.claims && Marked(s.claims[k].annotations)
  }

  /** History kept at a replica's successful write: whose claim it is, and whether it
      is marked from now on because of a job that is not its own. */
  function Noted(w: World, p: ReplicaProc, r: Response): Inits {
    if p.pc != PersistClaim || !r.StoredClaim? then w.inits
    else
      var i, u := w.inits.(named := w.inits.named[r.claim.uid := p.mem.key]), r.claim.uid;
      if Marked(r.claim.annotations) && !MarkedAt(w.cluster, p.mem.key)
         && p.mem.job.outcome == Succeeded && p.mem.job.owner != u && u !in i.borrowed
      then i.(borrowed := i.borrowed[u := p.mem.job.owner]) else i
  }

  function StepAdvanceReplica(w: World, id: nat, fault: Option<ApiError>): World {
    if id !in w.replicas || NextReplicaCall(w.replicas[id]).None? then w
    else
      var p := w.replicas[id];
      var (s, r) := Called(w, NextReplicaCall(p).value, fault, []);
      w.(cluster := s, replicas := w.replicas[id := ResumeReplica(p, r)], inits := Noted(w, p, r))
  }

  function WithReplica(w: World, id: nat, p: ReplicaProc): World {
    w.(replicas := w.replicas[id := p])
  }

  // --------------------------------------------------------------- Kubernetes

  function WithClaim(w: World, k: Key, c: Claim): (w': World)
    ensures w' == w.(cluster := w'.cluster) && w'.cluster.volumes == w.cluster.volumes && w'.cluster.jobs == w.cluster.jobs
  {
    w.(cluster := w.cluster.(claims := w.cluster.claims[k := c.(rv := w.cluster.next)],
                             next := w.cluster.next + 1))
  }

  predicate MayProvision(s: Cluster, k: Key, annotations: LabelMap) {
    k in s.claims && s.claims[k].spec.volumeName.None? && !CheckoutOwned(s.claims[k]) && RECLAIM_KEY !in annotations
  }

  /** The provisioner makes one fresh volume over fresh storage for a claim that
      names none; it sets no annotation of ours. */
  function StepProvision(w: World, k: Key, spec: VolumeSpec, labels: LabelMap, annotations: LabelMap): World {
    if !MayProvision(w.cluster, k, annotations) then w
    else
      var u, q := w.cluster.next, ClaimRef(k, w.cluster.claims[k].uid);
      var v := Volume(u, u, false, labels, annotations, spec.(claimRef := Some(q), handle := u));
      w.(cluster := w.cluster.(volumes := w.cluster.volumes[Provisioned(u) := v], next := u + 1),
         origin := w.origin[u :=
           Origin(q, spec.reclaimPolicy, spec.csi.Some?, spec.storageClass, spec.capacity, spec.accessModes,
                  labels, annotations)])
  }

  /** A volume refers to the claim with this UID. */
  predicate RefersTo(s: Cluster, v: VolumeName, uid: Uid) {
    && v in s.volumes
    && s.volumes[v].spec.claimRef.Some?
    && s.volumes[v].spec.claimRef.value.uid == uid
  }

  /** The binder binds a pending claim to the volume it names, or chose, if that
      volume refers back to it. */
  predicate MayBind(s: Cluster, k: Key, v: VolumeName) {
    && k in s.claims
    && s.claims[k].phase == Pending
    && (s.claims[k].spec.volumeName == None || s.claims[k].spec.volumeName == Some(v))
    && RefersTo(s, v, s.claims[k].uid)
  }

  function StepBind(w: World, k: Key, v: VolumeName): World {
    if MayBind(w.cluster, k, v) then
      var c := w.cluster.claims[k];
      WithClaim(w, k, c.(phase := Bound, spec := c.spec.(volumeName := Some(v))))
    else w
  }

  /** A bound claim whose volume is gone or refers to another claim is lost. */
  predicate MayLose(s: Cluster, k: Key) {
    && k in s.claims
    && s.claims[k].phase == Bound
    && (s.claims[k].spec.volumeName == None || !RefersTo(s, s.claims[k].spec.volumeName.value, s.claims[k].uid))
  }

  function StepMarkLost(w: World, k: Key): World {
    if MayLose(w.cluster, k) then WithClaim(w, k, w.cluster.claims[k].(phase := Lost)) else w
  }

  predicate MayReclaim(s: Cluster, v: VolumeName) {
    && v in s.volumes
    && s.volumes[v].spec.claimRef.Some?
    && !LiveUid(s, s.volumes[v].spec.claimRef.value.uid)
    && Destructive(s.volumes[v].spec.reclaimPolicy)
  }

  /** The reclaimer destroys the storage of a volume whose claim is gone, unless
      it is to be retained; volume and storage go together. */
  function StepReclaim(w: World, v: VolumeName): World {
    if MayReclaim(w.cluster, v) then
      w.(cluster := w.cluster.(volumes := w.cluster.volumes - {v}),
         destroyed := w.destroyed + {w.cluster.volumes[v].spec.handle})
    else w
  }

  function StepFinalizeClaim(w: World, k: Key): World {
    if k in w.cluster.claims && w.cluster.claims[k].deleting
    then w.(cluster := w.cluster.(claims := w.cluster.claims - {k})) else w
  }

  function StepFinalizeVolume(w: World, v: VolumeName): World {
    if v in w.cluster.volumes && w.cluster.volumes[v].deleting
    then w.(cluster := w.cluster.(volumes := w.cluster.volumes - {v})) else w
  }

  function StepEndJob(w: World, k: Key, outcome: JobOutcome): World {
    if k in w.cluster.jobs && w.cluster.jobs[k].outcome == Running then
      w.(cluster := w.cluster.(jobs := w.cluster.jobs[k := w.cluster.jobs[k].(outcome := outcome)]),
         inits := if outcome == Succeeded then w.inits.(ran := w.inits.ran + {w.cluster.jobs[k].owner}) else w.inits)
    else w
  }

  // -------------------------------------------------------------------- users

  predicate MayCreate(s: Cluster, k: Key, c: Claim) {
    k !in s.claims && !CheckoutOwned(c) && !Marked(c.annotations)
  }

  function StepCreateClaim(w: World, k: Key, c: Claim): World {
    if !MayCreate(w.cluster, k, c) then w
    else
      WithClaim(w, k, c.(uid := w.cluster.next, created := w.cluster.next, deleting := false, phase := Pending)).(
        inits := w.inits.(named := w.inits.named[w.cluster.next := k]))
  }

  /** Users leave the claims of checkouts alone and never mark a claim available. */
  predicate MayEdit(s: Cluster, k: Key, c: Claim) {
    && k in s.claims && !CheckoutOwned(s.claims[k]) && c.controller == s.claims[k].controller
    && (Marked(c.annotations) ==> Marked(s.claims[k].annotations))
  }

  function StepEditClaim(w: World, k: Key, c: Claim): World {
    if !MayEdit(w.cluster, k, c) then w
    else
      var o := w.cluster.claims[k];
      WithClaim(w, k, c.(uid := o.uid, created := o.created, deleting := o.deleting, phase := o.phase))
  }

  /** Users delete any claim that is not a checkout's, and the final claim of a
      checkout once its locked claim is gone. */
  predicate MayRemove(w: World, k: Key) {
    && k in w.cluster.claims
    && (CheckoutOwned(w.cluster.claims[k]) ==>
          var c := w.cluster.claims[k].controller.value.uid;
          c in w.checkouts && k == w.checkouts[c].claim && !HasLocked(w, c))
  }

  function StepRemoveClaim(w: World, k: Key): World {
    if MayRemove(w, k) then WithClaim(w, k, w.cluster.claims[k].(deleting := true)) else w
  }

  // --------------------------------------------------------------------- runs

  /** What happens outside the controllers: Kubernetes and users. */
  function StepAround(w: World, e: Event): World {
    match e
    case Provision(k, spec, labels, annotations) => StepProvision(w, k, spec, labels, annotations)
    case Bind(k, v) => StepBind(w, k, v)
    case MarkLost(k) => StepMarkLost(w, k)
    case Reclaim(v) => StepReclaim(w, v)
    case FinalizeClaim(k) => StepFinalizeClaim(w, k)
    case FinalizeVolume(v) => StepFinalizeVolume(w, v)
    case EndJob(k, outcome) => StepEndJob(w, k, outcome)
    case CollectJob(k) => w.(cluster := w.cluster.(jobs := w.cluster.jobs - {k}))
    case CreateClaim(k, c) => StepCreateClaim(w, k, c)
    case EditClaim(k, c) => StepEditClaim(w, k, c)
    case RemoveClaim(k) => StepRemoveClaim(w, k)
    case PutPool(k, pool) => w.(cluster := w.cluster.(pools := w.cluster.pools[k := pool]))
    case RemovePool(k) => w.(cluster := w.cluster.(pools := w.cluster.pools - {k}))
    case _ => w
  }

  /** A pool controller's steps with one replica, and what happens around. */
  function StepPool(w: World, e: Event): World {
    match e
    case BeginReplica(id, pool, k) =>
      if PHASE_KEY in pool.spec.template.annotations then w else WithReplica(w, id, StartReplica(pool, k))
    case AdvanceReplica(id, fault) => StepAdvanceReplica(w, id, fault)
    case ConfigureReplica(id) =>
      if id in w.replicas && Idle(w.replicas[id]) then
        WithReplica(w, id, w.replicas[id].(mem := ConfiguredReplica(w.replicas[id].pool.spec, w.replicas[id].mem)))
      else w
    case PersistReplica(id) =>
      if id in w.replicas && Idle(w.replicas[id]) then WithReplica(w, id, Persisting(w.replicas[id])) else w
    case DeleteReplica(id) =>
      if id in w.replicas && Idle(w.replicas[id]) && MayOwn(w.replicas[id])
      then WithReplica(w, id, Deleting(w.replicas[id])) else w
    case CrashReplica(id) => w.(replicas := w.replicas - {id})
    case _ => StepAround(w, e)
  }

  function Step(w: World, e: Event): World {
    match e
    case Begin(c, pool, modes) =>
      if c in w.checkouts then
        w.(procs := w.procs[c := StartProc(Checkout(c, w.checkouts[c].locked, w.checkouts[c].claim, pool, modes))])
      else w
    case Advance(c, fault, listing) => StepAdvance(w, c, fault, listing)
    case Choose(c, i) => StepChoose(w, c, i)
    case Crash(c) => w.(procs := w.procs - {c})
    case _ => StepPool(w, e)
  }

  /** A step of a checkout's own reconcile, or of a pool's. */
  predicate ByCheckout(e: Event) {
    e.Begin? || e.Advance? || e.Choose? || e.Crash?
  }

  predicate ByPool(e: Event) {
    || e.BeginReplica? || e.AdvanceReplica? || e.ConfigureReplica? || e.PersistReplica? || e.DeleteReplica?
    || e.CrashReplica?
  }

  lemma StepParts(w: World, e: Event)
    ensures !ByCheckout(e) ==> Step(w, e) == StepPool(w, e)
    ensures !ByCheckout(e) && !ByPool(e) ==> Step(w, e) == StepAround(w, e)
  {
    hide StepAdvance, StepChoose, StepAdvanceReplica, ConfiguredReplica, Persisting, Deleting, StartReplica, StepAround;
  }

  /** Starting, choosing, configuring and crashing touch nothing but memory. */
  lemma MemoryOnly(w: World, e: Event)
    requires (ByCheckout(e) || ByPool(e)) && !e.Advance? && !e.AdvanceReplica?
    ensures var w' := Step(w, e); w' == w.(procs := w'.procs, replicas := w'.replicas)
  {
    hide Chosen, Oldest, ConfiguredReplica, Persisting, Deleting, Idle, MayOwn, StartProc, StartReplica, StepAdvance,
      StepAdvanceReplica, StepAround;
  }

  lemma AroundMemory(w: World, e: Event)
    ensures var w' := StepAround(w, e);
      w' == w.(cluster := w'.cluster, origin := w'.origin, inits := w'.inits, destroyed := w'.destroyed)
    ensures e.EndJob? || e.CreateClaim? || StepAround(w, e).inits == w.inits
  {
    hide MayProvision, MayBind, MayLose, MayReclaim, MayCreate, MayEdit, MayRemove, WithClaim;
  }

  function Run(w: World, es: seq<Event>): World {
    if es == [] then w else Step(Run(w, es[..|es| - 1]), es[|es| - 1])
  }

  /** An empty cluster with any number of checkouts, none of which names its
      final claim like its own locked claim. */
  ghost predicate Init(w: World) {
    && w.cluster == Cluster(map[], map[], map[], map[], 1)
    && w.procs == map[] && w.replicas == map[]
    && w.origin == map[] && w.taken == map[] && w.owned == map[]
    && w.inits == NOBODY && w.destroyed == {}
    && forall c | c in w.checkouts :: w.checkouts[c].locked != w.checkouts[c].claim
  }
}
