/** The part of a Kubernetes cluster that the two controllers touch, and the
    contract of its API server: one function per request. */
module Kube {
  import opened Labels

  datatype Option<+T> = None | Some(value: T)

  // ------------------------------------------------------------------ objects

  /** Object UIDs.  0 is the empty UID of an object that was never loaded. */
  type Uid = nat

  datatype Key = Key(namespace: string, name: string)

  /** Names of persistent volumes: chosen by the provisioner for a volume whose
      UID is `id`, or derived by a checkout from the UID of the volume it took. */
  datatype VolumeName = Provisioned(id: Uid) | Derived(of: Uid)

  /** The controlling owner reference of a claim. */
  datatype Owner = CheckoutOwner(uid: Uid) | PoolOwner(uid: Uid) | OtherOwner(uid: Uid)

  datatype AccessMode = ReadWriteOnce | ReadOnlyMany | ReadWriteMany

  datatype ClaimPhase = NoPhase | Pending | Bound | Lost

  datatype ClaimSpec = ClaimSpec(
    volumeName: Option<VolumeName>,
    storageClass: Option<string>,
    accessModes: seq<AccessMode>,
    request: nat,
    selector: Option<Selector>)

  datatype Claim = Claim(
    uid: Uid, rv: nat, created: nat, deleting: bool,
    controller: Option<Owner>,
    labels: LabelMap, annotations: LabelMap,
    spec: ClaimSpec,
    phase: ClaimPhase)

  datatype ClaimRef = ClaimRef(key: Key, uid: Uid)

  /** `handle` names the storage behind the volume; `csi` is the readOnly flag
      of a CSI source, absent for other sources. */
  datatype VolumeSpec = VolumeSpec(
    claimRef: Option<ClaimRef>,
    reclaimPolicy: string,
    handle: nat,
    csi: Option<bool>,
    storageClass: string,
    accessModes: seq<AccessMode>,
    capacity: nat)

  datatype Volume = Volume(
    uid: Uid, rv: nat, deleting: bool,
    labels: LabelMap, annotations: LabelMap,
    spec: VolumeSpec)

  datatype NamedVolume = NamedVolume(name: VolumeName, volume: Volume)

  datatype JobOutcome = Running | Succeeded | Failed(reason: string)

  datatype JobVolume = JobVolume(name: string, claimName: Option<string>)

  datatype JobSpec = JobSpec(
    restartPolicy: string,
    activeDeadlineSeconds: Option<int>,
    backoffLimit: Option<int>,
    volumes: seq<JobVolume>)

  /** `owner` is the UID of the claim that owns the job. */
  datatype Job = Job(
    uid: Uid, owner: Uid, outcome: JobOutcome, labels: LabelMap, annotations: LabelMap, spec: JobSpec)

  datatype Template = Template(labels: LabelMap, annotations: LabelMap, spec: ClaimSpec)

  datatype MountJob = MountJob(labels: LabelMap, annotations: LabelMap, spec: JobSpec, volumeName: string)

  datatype PoolSpec = PoolSpec(
    replicas: Option<int>, selector: Selector, template: Template, initJob: Option<MountJob>)

  datatype Pool = Pool(key: Key, uid: Uid, spec: PoolSpec)

  const RETAIN := "Retain"

  const EMPTY_CLAIM_SPEC := ClaimSpec(None, None, [], 0, None)
  const NEW_CLAIM := Claim(0, 0, 0, false, None, map[], map[], EMPTY_CLAIM_SPEC, NoPhase)
  const NEW_VOLUME := Volume(0, 0, false, map[], map[], VolumeSpec(None, "", 0, None, "", [], 0))
  const NEW_JOB := Job(0, 0, Running, map[], map[], JobSpec("", None, None, []))

  predicate CheckoutOwned(c: Claim) {
    c.controller.Some? && c.controller.value.CheckoutOwner?
  }

  /** A policy under which releasing the claim loses the data. */
  predicate Destructive(policy: string) {
    policy != RETAIN
  }

  // --------------------------------------------------------------- API server

  /** `next` is the source of fresh UIDs and resource versions. */
  datatype Cluster = Cluster(
    claims: map<Key, Claim>,
    volumes: map<VolumeName, Volume>,
    jobs: map<Key, Job>,
    pools: map<Key, Pool>,
    next: nat)

  datatype ApiError = AlreadyExists | NotFound | Conflict | Invalid | Unavailable

  datatype Request =
    | GetClaim(key: Key)
    | GetVolume(wanted: Option<VolumeName>)
    | GetJob(key: Key)
    | GetPool(key: Key)
    | ListClaims(namespace: string, selector: Selector)
    | PutClaim(key: Key, claim: Claim)
    | PutVolume(name: VolumeName, volume: Volume)
    | PutJob(key: Key, job: Job)
    | DropClaim(key: Key, uid: Uid)
    | DropVolume(name: VolumeName, uid: Uid)
    | DropJob(key: Key, uid: Uid)

  datatype Response =
    | Refused(error: ApiError)
    | GotClaim(found: Option<Claim>)
    | GotVolume(foundVolume: Option<Volume>)
    | GotJob(foundJob: Option<Job>)
    | GotPool(foundPool: Option<Pool>)
    | GotKeys(keys: seq<Key>)
    | StoredClaim(claim: Claim)
    | StoredVolume(volume: Volume)
    | StoredJob(job: Job)
    | Dropped(existed: bool)

  /** One request together with the answer it got. */
  datatype Exchange = Exchange(req: Request, resp: Response)

  function Find<K, V>(m: map<K, V>, k: K): Option<V> {
    if k in m then Some(m[k]) else None
  }

  /** The claim at k, or one that was never loaded. */
  function ClaimAt(s: Cluster, k: Key): Claim {
    if k in s.claims then s.claims[k] else NEW_CLAIM
  }

  /** What an update may not change on a claim: a chosen volume, the access
      modes, the storage class. */
  predicate ClaimUpdateValid(old': Claim, new': Claim) {
    && (old'.spec.volumeName.Some? ==> new'.spec.volumeName == old'.spec.volumeName)
    && new'.spec.accessModes == old'.spec.accessModes
    && new'.spec.storageClass == old'.spec.storageClass
  }

  /** Create when the object was never loaded, else update under the loaded UID
      and resource version.  Status, age and deletion mark belong to the server. */
  function ServePutClaim(s: Cluster, k: Key, o: Claim): (Cluster, Response) {
    if o.uid == 0 then
      if k in s.claims then (s, Refused(AlreadyExists))
      else
        var c := o.(uid := s.next, rv := s.next, created := s.next, deleting := false, phase := Pending);
        (s.(claims := s.claims[k := c], next := s.next + 1), StoredClaim(c))
    else if k !in s.claims then (s, Refused(NotFound))
    else
      var old' := s.claims[k];
      if old'.uid != o.uid || old'.rv != o.rv then (s, Refused(Conflict))
      else if !ClaimUpdateValid(old', o) then (s, Refused(Invalid))
      else
        var c := o.(created := old'.created, deleting := old'.deleting, phase := old'.phase);
        if c == old' then (s, StoredClaim(c))
        else
          var c' := c.(rv := s.next);
          (s.(claims := s.claims[k := c'], next := s.next + 1), StoredClaim(c'))
  }

  function ServePutVolume(s: Cluster, n: VolumeName, o: Volume): (Cluster, Response) {
    if o.uid == 0 then
      if n in s.volumes then (s, Refused(AlreadyExists))
      else
        var v := o.(uid := s.next, rv := s.next, deleting := false);
        (s.(volumes := s.volumes[n := v], next := s.next + 1), StoredVolume(v))
    else if n !in s.volumes then (s, Refused(NotFound))
    else
      var old' := s.volumes[n];
      if old'.uid != o.uid || old'.rv != o.rv then (s, Refused(Conflict))
      else
        var v := o.(deleting := old'.deleting);
        if v == old' then (s, StoredVolume(v))
        else
          var v' := v.(rv := s.next);
          (s.(volumes := s.volumes[n := v'], next := s.next + 1), StoredVolume(v'))
  }

  /** Jobs are only ever created: they are immutable once they run. */
  function ServePutJob(s: Cluster, k: Key, o: Job): (Cluster, Response) {
    if o.uid != 0 || k in s.jobs then (s, Refused(AlreadyExists))
    else
      var j := o.(uid := s.next, outcome := Running);
      (s.(jobs := s.jobs[k := j], next := s.next + 1), StoredJob(j))
  }

  /** Deletion acts on the loaded UID and only marks the object; finalizers
      decide when it goes. */
  function ServeDropClaim(s: Cluster, k: Key, uid: Uid): (Cluster, Response) {
    if k !in s.claims then (s, Dropped(false))
    else if s.claims[k].uid != uid then (s, Refused(Conflict))
    else if s.claims[k].deleting then (s, Dropped(true))
    else
      (s.(claims := s.claims[k := s.claims[k].(deleting := true, rv := s.next)], next := s.next + 1),
       Dropped(true))
  }

  function ServeDropVolume(s: Cluster, n: VolumeName, uid: Uid): (Cluster, Response) {
    if n !in s.volumes then (s, Dropped(false))
    else if s.volumes[n].uid != uid then (s, Refused(Conflict))
    else if s.volumes[n].deleting then (s, Dropped(true))
    else
      (s.(volumes := s.volumes[n := s.volumes[n].(deleting := true, rv := s.next)], next := s.next + 1),
       Dropped(true))
  }

  function ServeDropJob(s: Cluster, k: Key, uid: Uid): (Cluster, Response) {
    if k !in s.jobs then (s, Dropped(false))
    else if s.jobs[k].uid != uid then (s, Refused(Conflict))
    else (s.(jobs := s.jobs - {k}), Dropped(true))
  }

  /** `keys` lists exactly the claims of the namespace that match, in any order. */
  predicate IsListing(s: Cluster, namespace: string, selector: Selector, keys: seq<Key>) {
    && (forall i, j | 0 <= i < j < |keys| :: keys[i] != keys[j])
    && (forall i | 0 <= i < |keys| :: keys[i] in s.claims)
    && (forall k | k in s.claims ::
          k in keys <==> k.namespace == namespace && Matches(selector, s.claims[k].labels))
  }

  /** The API server.  `listing` is the order in which a list call returns its
      items; a call given anything but a listing is refused. */
  function Serve(s: Cluster, req: Request, listing: seq<Key>): (Cluster, Response) {
    match req
    case GetClaim(k) => (s, GotClaim(Find(s.claims, k)))
    case GetVolume(n) => (s, GotVolume(if n.Some? then Find(s.volumes, n.value) else None))
    case GetJob(k) => (s, GotJob(Find(s.jobs, k)))
    case GetPool(k) => (s, GotPool(Find(s.pools, k)))
    case ListClaims(ns, sel) =>
      (s, if IsListing(s, ns, sel, listing) then GotKeys(listing) else Refused(Unavailable))
    case PutClaim(k, o) => ServePutClaim(s, k, o)
    case PutVolume(n, o) => ServePutVolume(s, n, o)
    case PutJob(k, o) => ServePutJob(s, k, o)
    case DropClaim(k, uid) => ServeDropClaim(s, k, uid)
    case DropVolume(n, uid) => ServeDropVolume(s, n, uid)
    case DropJob(k, uid) => ServeDropJob(s, k, uid)
  }

  /** What a caller may rely on about an answer without knowing the cluster:
      the server stores what it is sent, apart from the fields it owns. */
  predicate Fits(req: Request, r: Response) {
    r.Refused? ||
    match req
    case GetClaim(_) => r.GotClaim? && (r.found.Some? ==> r.found.value.uid != 0)
    case GetVolume(_) => r.GotVolume? && (r.foundVolume.Some? ==> req.wanted.Some? && r.foundVolume.value.uid != 0)
    case GetJob(_) => r.GotJob? && (r.foundJob.Some? ==> r.foundJob.value.uid != 0)
    case GetPool(_) => r.GotPool?
    case ListClaims(_, _) => r.GotKeys?
    case PutClaim(_, o) =>
      && r.StoredClaim? && r.claim.uid != 0
      && (o.uid != 0 ==> r.claim.uid == o.uid)
      && (o.uid == 0 ==> !r.claim.deleting && r.claim.phase == Pending)
      && r.claim == o.(uid := r.claim.uid, rv := r.claim.rv, created := r.claim.created,
                       deleting := r.claim.deleting, phase := r.claim.phase)
    case PutVolume(_, o) =>
      && r.StoredVolume? && r.volume.uid != 0
      && (o.uid != 0 ==> r.volume.uid == o.uid)
      && r.volume == o.(uid := r.volume.uid, rv := r.volume.rv, deleting := r.volume.deleting)
    case PutJob(_, o) =>
      && r.StoredJob? && r.job.uid != 0 && r.job.outcome == Running
      && r.job == o.(uid := r.job.uid, outcome := Running)
    case DropClaim(_, _) => r.Dropped?
    case DropVolume(_, _) => r.Dropped?
    case DropJob(_, _) => r.Dropped?
  }

  /** No stored object has the empty UID. */
  ghost predicate Identified(s: Cluster) {
    && 0 < s.next
    && (forall k | k in s.claims :: s.claims[k].uid != 0)
    && (forall n | n in s.volumes :: s.volumes[n].uid != 0)
    && (forall k | k in s.jobs :: s.jobs[k].uid != 0)
  }

  /** Every volume refers to a claim. */
  predicate Referring(s: Cluster) {
    forall n | n in s.volumes :: s.volumes[n].spec.claimRef.Some?
  }

  lemma PutClaimFits(s: Cluster, k: Key, o: Claim)
    requires Identified(s)
    ensures Fits(PutClaim(k, o), ServePutClaim(s, k, o).1) && Identified(ServePutClaim(s, k, o).0)
  {
  }

  lemma PutVolumeFits(s: Cluster, n: VolumeName, o: Volume)
    requires Identified(s)
    ensures Fits(PutVolume(n, o), ServePutVolume(s, n, o).1) && Identified(ServePutVolume(s, n, o).0)
  {
  }

  lemma DropsFit(s: Cluster, k: Key, n: VolumeName, uid: Uid)
    requires Identified(s)
    ensures Identified(ServeDropClaim(s, k, uid).0) && Identified(ServeDropVolume(s, n, uid).0)
  {
  }

  /** Every answer of the API server is one a caller is prepared for. */
  lemma ServeFits(s: Cluster, req: Request, listing: seq<Key>)
    requires Identified(s)
    ensures Fits(req, Serve(s, req, listing).1) && Identified(Serve(s, req, listing).0)
  {
    hide ServePutClaim;
    match req
    case PutClaim(k, o) => PutClaimFits(s, k, o);
    case PutVolume(n, o) => PutVolumeFits(s, n, o);
    case DropClaim(k, uid) => DropsFit(s, k, Provisioned(0), uid);
    case DropVolume(n, uid) => DropsFit(s, Key("", ""), n, uid);
    case _ =>
  }
}
