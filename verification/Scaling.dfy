/** Scaling a pool in the cluster: what one reconcile leaves there is what the next
    one finds, so that the number of replicas settles at the request. */
module Scaling {
  import opened Labels
  import opened Kube
  import opened Replica
  import opened World
  import opened Selection
  import opened Counting
  import opened PoolStates

  // --------------------------------------------------------- what Kubernetes does

  /** An event that neither takes a replica from the pool nor fails its init job. */
  predicate Calm(s: Cluster, e: Event) {
    match e
    case Provision(_, _, _, _) => true
    case Bind(_, _) => true
    case MarkLost(_) => true
    case Reclaim(_) => true
    case FinalizeClaim(_) => true
    case EndJob(_, outcome) => !outcome.Failed?
    case CollectJob(k) => !JobAt(s, k).outcome.Failed?
    case _ => false
  }

  lemma ClaimCut(s: Cluster, s': Cluster, k: Key)
    requires Sound(s) && s' == s.(claims := s.claims - {k})
    ensures OnlyAt(s, s', k) && Sound(s')
  {
  }

  /** The claim at k differs only in what does not decide whether it counts. */
  lemma LikeCounts(s: Cluster, s': Cluster, pool: Pool, k: Key)
    requires k in s.claims && k in s'.claims && s'.claims[k].labels == s.claims[k].labels
    requires s'.claims[k].controller == s.claims[k].controller && s'.claims[k].deleting == s.claims[k].deleting
    requires s.claims[k].phase != Lost && s'.claims[k].phase != Lost && ReplicaAt(s, k).Some? && ReplicaAt(s', k).Some?
    requires JobAt(s', k).outcome.Failed? <==> JobAt(s, k).outcome.Failed?
    ensures k in Counted(s', pool) <==> k in Counted(s, pool)
  {
    hide Matches, JobAt, Marked;
  }

  lemma BindKeeps(w: World, pool: Pool, k: Key, v: VolumeName)
    requires Sound(w.cluster) && MayBind(w.cluster, k, v)
    ensures var s' := StepBind(w, k, v).cluster; Sound(s') && Counted(s', pool) == Counted(w.cluster, pool)
  {
    hide Counted;
    var s, s' := w.cluster, StepBind(w, k, v).cluster;
    SoundClaim(s, k);
    hide Sound, OnlyAt;
    ClaimSet(s, s', k, s'.claims[k]);
    LikeCounts(s, s', pool, k);
    SameCount(s, s', pool, k);
  }

  lemma LoseKeeps(w: World, pool: Pool, k: Key)
    requires Sound(w.cluster) && MayLose(w.cluster, k)
    ensures var s' := StepMarkLost(w, k).cluster; Sound(s') && Counted(s', pool) == Counted(w.cluster, pool)
  {
    hide Counted;
    var s, s' := w.cluster, StepMarkLost(w, k).cluster;
    SoundClaim(s, k);
    hide Sound, OnlyAt;
    ClaimSet(s, s', k, s'.claims[k]);
    NotCounted(s, pool, k);
    LostUncounted(s', pool, k);
    SameCount(s, s', pool, k);
  }

  lemma LostUncounted(s: Cluster, pool: Pool, k: Key)
    requires k in s.claims && s.claims[k].phase == Lost
    ensures k !in Counted(s, pool)
  {
    hide Matches;
  }

  lemma FinalizeKeeps(w: World, pool: Pool, k: Key)
    requires Sound(w.cluster) && k in w.cluster.claims && w.cluster.claims[k].deleting
    ensures var s' := StepFinalizeClaim(w, k).cluster; Sound(s') && Counted(s', pool) == Counted(w.cluster, pool)
  {
    hide Counted;
    var s, s' := w.cluster, StepFinalizeClaim(w, k).cluster;
    ClaimCut(s, s', k);
    hide Sound, OnlyAt;
    NotCounted(s, pool, k);
    NotCounted(s', pool, k);
    SameCount(s, s', pool, k);
  }

  /** A change of the job at k that is no failure. */
  lemma JobKeeps(s: Cluster, s': Cluster, pool: Pool, k: Key)
    requires OnlyAt(s, s', k) && s'.claims == s.claims
    requires !JobAt(s, k).outcome.Failed? && !JobAt(s', k).outcome.Failed?
    ensures Counted(s', pool) == Counted(s, pool)
  {
    hide Counted;
    assert s'.volumes == s.volumes;
    if k in s.claims && ReplicaAt(s, k).Some? && s.claims[k].phase != Lost {
      hide OnlyAt;
      LikeCounts(s, s', pool, k);
    } else if k in s.claims && s.claims[k].phase == Lost {
      LostUncounted(s, pool, k);
      LostUncounted(s', pool, k);
    } else {
      hide OnlyAt;
      NotCounted(s, pool, k);
      NotCounted(s', pool, k);
    }
    hide OnlyAt;
    SameCount(s, s', pool, k);
  }

  lemma EndJobKeeps(w: World, pool: Pool, k: Key, outcome: JobOutcome)
    requires Sound(w.cluster) && !outcome.Failed? && k in w.cluster.jobs && w.cluster.jobs[k].outcome == Running
    ensures var s' := StepEndJob(w, k, outcome).cluster; Sound(s') && Counted(s', pool) == Counted(w.cluster, pool)
  {
    hide Counted;
    var s, s' := w.cluster, StepEndJob(w, k, outcome).cluster;
    JobSet(s, s', k, s'.jobs[k]);
    hide Sound, OnlyAt;
    JobKeeps(s, s', pool, k);
  }

  /** Volumes come and go, but those of claims that count stay. */
  lemma VolumesKeep(s: Cluster, s': Cluster, pool: Pool)
    requires s'.claims == s.claims && s'.jobs == s.jobs
    requires forall k | k in s.claims :: ReplicaAt(s', k) == ReplicaAt(s, k)
    ensures Counted(s', pool) == Counted(s, pool)
  {
    hide ReplicaAt, BucketOf, Matches;
  }

  lemma NewVolume(s: Cluster, s': Cluster, v: Volume)
    requires Sound(s) && s' == s.(volumes := s.volumes[Provisioned(s.next) := v], next := s.next + 1) && v.uid != 0
    ensures Sound(s')
    ensures forall k | k in s.claims :: s.claims[k].spec.volumeName != Some(Provisioned(s.next))
  {
    forall k | k in s.claims ensures s.claims[k].spec.volumeName != Some(Provisioned(s.next)) {
      assert Older(s.claims[k].spec.volumeName, s.next);
    }
  }

  lemma ProvisionKeeps(w: World, pool: Pool, k: Key, spec: VolumeSpec, labels: LabelMap, annotations: LabelMap)
    requires Sound(w.cluster) && MayProvision(w.cluster, k, annotations)
    ensures var s' := StepProvision(w, k, spec, labels, annotations).cluster;
      Sound(s') && Counted(s', pool) == Counted(w.cluster, pool)
  {
    hide Counted;
    SoundNext(w.cluster);
    hide Sound;
    var s, s' := w.cluster, StepProvision(w, k, spec, labels, annotations).cluster;
    NewVolume(s, s', s'.volumes[Provisioned(s.next)]);
    VolumesKeep(s, s', pool);
  }

  lemma OldVolume(s: Cluster, s': Cluster, v: VolumeName)
    requires Sound(s) && s' == s.(volumes := s.volumes - {v})
    ensures Sound(s')
  {
  }

  lemma ReclaimKeeps(w: World, pool: Pool, v: VolumeName)
    requires Sound(w.cluster) && MayReclaim(w.cluster, v)
    ensures var s' := StepReclaim(w, v).cluster; Sound(s') && Counted(s', pool) == Counted(w.cluster, pool)
  {
    hide Counted;
    var s, s' := w.cluster, StepReclaim(w, v).cluster;
    OldVolume(s, s', v);
    hide Sound;
    forall k | k in s.claims ensures ReplicaAt(s', k) == ReplicaAt(s, k) {
      assert LiveUid(s, s.claims[k].uid);
      hide LiveUid, JobAt;
    }
    VolumesKeep(s, s', pool);
  }

  /** While nothing is taken and no job fails, Kubernetes leaves the number of
      replicas alone. */
  lemma CalmKeeps(w: World, e: Event, pool: Pool)
    requires Sound(w.cluster) && Calm(w.cluster, e)
    ensures Sound(Step(w, e).cluster) && Counted(Step(w, e).cluster, pool) == Counted(w.cluster, pool)
  {
    hide StepAdvance, StepAdvanceReplica, StepChoose, ConfiguredReplica, Persisting;
    var s := w.cluster;
    hide Sound, OnlyAt, Counted, MayProvision, MayReclaim, MayBind, MayLose;
    match e
    case Provision(k, spec, labels, annotations) =>
      if MayProvision(s, k, annotations) { ProvisionKeeps(w, pool, k, spec, labels, annotations); }
    case Bind(k, v) => if MayBind(s, k, v) { BindKeeps(w, pool, k, v); }
    case MarkLost(k) => if MayLose(s, k) { LoseKeeps(w, pool, k); }
    case Reclaim(v) => if MayReclaim(s, v) { ReclaimKeeps(w, pool, v); }
    case FinalizeClaim(k) => if k in s.claims && s.claims[k].deleting { FinalizeKeeps(w, pool, k); }
    case EndJob(k, outcome) =>
      if k in s.jobs && s.jobs[k].outcome == Running { EndJobKeeps(w, pool, k, outcome); }
    case CollectJob(k) =>
      var s' := s.(jobs := s.jobs - {k});
      JobCut(s, s', k);
      JobKeeps(s, s', pool, k);
  }

  // ------------------------------------------------------------------ settlement

  /** Reconciles of the pool, each with the cluster it leaves behind, and in between
      what Kubernetes does. */
  datatype Turn = Outside(e: Event) | Reconcile(after: Cluster)

  function Turned(w: World, t: Turn): World {
    match t
    case Outside(e) => Step(w, e)
    case Reconcile(after) => w.(cluster := after)
  }

  function AfterTurns(w: World, ts: seq<Turn>): World {
    if ts == [] then w else Turned(AfterTurns(w, ts[..|ts| - 1]), ts[|ts| - 1])
  }

  /** Of a reconcile only what every undisturbed one is proved to do. */
  ghost predicate Allowed(w: World, pool: Pool, t: Turn) {
    match t
    case Outside(e) => Calm(w.cluster, e)
    case Reconcile(after) => StepsToward(w.cluster, pool, after)
  }

  ghost predicate Undisturbed(w: World, pool: Pool, ts: seq<Turn>) {
    forall i | 0 <= i < |ts| :: Allowed(AfterTurns(w, ts[..i]), pool, ts[i])
  }

  function Reconciles(ts: seq<Turn>): nat {
    if ts == [] then 0 else Reconciles(ts[..|ts| - 1]) + (if ts[|ts| - 1].Reconcile? then 1 else 0)
  }

  /** n steps toward the request. */
  function After(actual: nat, request: int, n: nat): nat {
    if n == 0 then actual else Toward(After(actual, request, n - 1), request)
  }

  /** Steps come one closer each, never pass the request, and then stay. */
  lemma {:induction false} Converges(actual: nat, request: int, n: nat)
    ensures After(actual, request, n) ==
      if actual <= request then if actual + n <= request then actual + n else request
      else if actual - n >= request && actual >= n then actual - n
      else if request >= 0 then request else 0
  {
    if n > 0 {
      Converges(actual, request, n - 1);
    }
  }

  lemma {:induction false} TurnsCount(w: World, pool: Pool, ts: seq<Turn>)
    requires Sound(w.cluster) && Undisturbed(w, pool, ts)
    ensures var w' := AfterTurns(w, ts);
      && Sound(w'.cluster)
      && |Counted(w'.cluster, pool)| == After(|Counted(w.cluster, pool)|, Requested(pool), Reconciles(ts))
  {
    hide Sound, Counted, Step, Calm, Toward;
    if ts != [] {
      var n := |ts| - 1;
      assert Undisturbed(w, pool, ts[..n]) by {
        forall i | 0 <= i < n ensures Allowed(AfterTurns(w, ts[..n][..i]), pool, ts[..n][i]) {
          assert ts[..n][..i] == ts[..i];
        }
      }
      TurnsCount(w, pool, ts[..n]);
      var v := AfterTurns(w, ts[..n]);
      assert Allowed(v, pool, ts[n]);
      match ts[n]
      case Outside(e) => CalmKeeps(v, e, pool);
      case Reconcile(_) =>
    }
  }

  /** A pool settles: with no failures and nothing taken, whatever Kubernetes does
      between the reconciles, the number of replicas in the cluster comes one closer to
      the request with each of them, never passes it, and stays there; the request is
      one if the pool asks for no number, and none if it asks for a negative one. */
  lemma Settles(w: World, pool: Pool, ts: seq<Turn>)
    requires Sound(w.cluster) && Undisturbed(w, pool, ts)
    ensures var (was, now) := (|Counted(w.cluster, pool)|, |Counted(AfterTurns(w, ts).cluster, pool)|);
      var request := if pool.spec.replicas.None? then 1 else pool.spec.replicas.value;
      && (was <= request ==> now == if was + Reconciles(ts) <= request then was + Reconciles(ts) else request)
      && (was >= request ==>
            now == if was - Reconciles(ts) >= request && was >= Reconciles(ts) then was - Reconciles(ts)
                   else if request >= 0 then request else 0)
  {
    hide Sound, Counted, Undisturbed, AfterTurns;
    TurnsCount(w, pool, ts);
    Converges(|Counted(w.cluster, pool)|, Requested(pool), Reconciles(ts));
  }

  // ------------------------------------------------- the last available replica

  /** A cluster with one available replica of the pool, and nothing else. */
  function OneAvailable(pool: Pool, k: Key): Cluster {
    var spec := NEW_VOLUME.spec.(claimRef := Some(ClaimRef(k, 1)));
    var claim := NEW_CLAIM.(
      uid := 1, rv := 1, phase := Bound, controller := Some(PoolOwner(pool.uid)),
      labels := pool.spec.template.labels, annotations := map[PHASE_KEY := AVAILABLE],
      spec := EMPTY_CLAIM_SPEC.(volumeName := Some(Provisioned(2))));
    Cluster(map[k := claim], map[Provisioned(2) := NEW_VOLUME.(uid := 2, spec := spec)], map[], map[], 3)
  }

  /** A pool that requests none has an available replica before the reconcile, which
      reports it available, and none after it. */
  lemma LastOneGoes(pool: Pool, k: Key, s': Cluster)
    requires Requested(pool) <= 0 && k.namespace == pool.key.namespace
    requires Matches(pool.spec.selector, pool.spec.template.labels)
    requires StepsToward(OneAvailable(pool, k), pool, s')
    ensures Sound(OneAvailable(pool, k)) && Counting.In(OneAvailable(pool, k), pool, k, ToAvailable)
    ensures Counted(s', pool) == {}
  {
    hide Matches;
    var s := OneAvailable(pool, k);
    assert Counted(s, pool) == {k};
  }
}
