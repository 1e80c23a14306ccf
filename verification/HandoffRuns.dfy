/** The invariant over whole runs. */
module HandoffRuns {
  import opened Kube
  import opened Replica
  import opened Checkouts
  import opened World
  import opened HandoffInvariant
  import opened HandoffSteps
  import opened HandoffOwn

  /** The checkout whose own reconcile makes this step, if any. */
  function Actor(e: Event): Option<Uid> {
    match e
    case Begin(c, _, _) => Some(c)
    case Advance(c, _, _) => Some(c)
    case Choose(c, _) => Some(c)
    case Crash(c) => Some(c)
    case _ => None
  }

  // ------------------------------------------------------------- replica steps

  lemma ReplicaLoadOk(w: World, w': World, p: ReplicaProc)
    requires Core(w) && ReplicaInv(w, p) && (p.pc.LoadJob? || p.pc.LoadClaim? || p.pc.LoadVolume?)
    requires SameCore(w, w')
    ensures NextReplicaCall(p).Some?
    ensures ReplicaInv(w', ResumeReplica(p, Serve(w.cluster, NextReplicaCall(p).value, []).1))
  {
    hide HistoryInv, ClaimsInv, VolumesInv, CheckoutInv, ReplicaFacts, Extends, Rely, Grows, ServePutClaim;
    assert LoadInv(w, p);
    LoadStepOk(w, p, []);
    var r := Serve(w.cluster, NextReplicaCall(p).value, []).1;
    var q := ResumeReplica(p, r);
    ResumedPool(p, r);
    hide ResumeReplica, NextReplicaCall, Serve;
    Unchanged(w, w');
    ReplicaFactsStable(w, w', q.mem);
  }

  /** No answer changes whose replica it is. */
  lemma ResumedPool(p: ReplicaProc, r: Response)
    ensures ResumeReplica(p, r).pool == p.pool
  {
  }

  lemma ReplicaPersistedOk(w: World, w': World, p: ReplicaProc, cl: Claim)
    requires Core(w) && ReplicaInv(w, p) && p.pc == PersistClaim
    requires ServePutClaim(w.cluster, p.mem.key, p.mem.claim) == (w'.cluster, StoredClaim(cl))
    requires Core(w') && Extends(w, w') && w'.owned == w.owned
    ensures ReplicaInv(w', ResumeReplica(p, StoredClaim(cl)))
  {
    hide VolumesInv, CheckoutInv, HistoryInv, ServePutClaim, Extends, Snapshot, Readied, Ran, Named, Grows;
    PutUid(w.cluster, p.mem.key, p.mem.claim);
    PutElsewhere(w.cluster, p.mem.key, p.mem.claim);
    assert ClaimShape(w', p.mem.key, cl);
    ReplicaFactsStable(w, w', p.mem);
  }

  /** A job call, or a refused one, changes nothing a replica knows. */
  lemma ReplicaOtherOk(w: World, w': World, p: ReplicaProc, r: Response)
    requires ReplicaInv(w, p) && Extends(w, w') && NextReplicaCall(p).Some?
    requires r.Refused? || ((p.pc.PersistDropJob? || p.pc.DeleteJob? || p.pc.DeleteClaim?) && r.Dropped?)
          || (p.pc.PersistJob? && r.StoredJob? && r.job.outcome == Running)
    ensures ReplicaInv(w', ResumeReplica(p, r))
  {
    hide Snapshot;
    ReplicaFactsStable(w, w', p.mem);
    hide Extends;
  }

  lemma ReplicaStepOk(w: World, w': World, id: nat, fault: Option<ApiError>)
    requires Core(w) && id in w.replicas && MemAt(w, id)
    requires w' == StepAdvanceReplica(w, id, fault) && Core(w') && Extends(w, w')
    ensures MemAt(w', id)
  {
    hide ReplicaInv, Extends, Core, Noted, ResumeReplica;
    var p := w.replicas[id];
    if NextReplicaCall(p).None? {
      ReplicaIdle(w, w', p);
    } else {
      var r := Called(w, NextReplicaCall(p).value, fault, []).1;
      if r.Refused? {
        ReplicaOtherOk(w, w', p, r);
      } else if p.pc.LoadJob? || p.pc.LoadClaim? || p.pc.LoadVolume? {
        NotedNothing(w, p, r);
        ReplicaLoadOk(w, w', p);
      } else if p.pc.PersistClaim? {
        ReplicaPersistedOk(w, w', p, r.claim);
      } else {
        ReplicaOtherOk(w, w', p, r);
      }
    }
  }

  lemma NotedNothing(w: World, p: ReplicaProc, r: Response)
    requires p.pc != PersistClaim
    ensures Noted(w, p, r) == w.inits
  {
  }

  lemma ReplicaIdle(w: World, w': World, p: ReplicaProc)
    requires ReplicaInv(w, p) && Extends(w, w')
    ensures ReplicaInv(w', p)
  {
    hide Snapshot;
    ReplicaFactsStable(w, w', p.mem);
    hide Extends;
  }

  /** Marking a replica available takes an init job that succeeded. */
  lemma ConfiguredOk(w: World, pool: Pool, r: Replica)
    requires ReplicaFacts(w, r)
    ensures ReplicaFacts(w, ConfiguredReplica(pool.spec, r))
  {
    hide Snapshot;
  }

  lemma ReplicaLocalOk(w: World, p: ReplicaProc)
    requires ReplicaInv(w, p) && Idle(p)
    ensures ReplicaInv(w, p.(mem := ConfiguredReplica(p.pool.spec, p.mem)))
    ensures ReplicaInv(w, Persisting(p))
    ensures MayOwn(p) ==> ReplicaInv(w, Deleting(p))
  {
    hide Snapshot, ReplicaFacts, ConfiguredReplica, Labelled, JobLabelled, Available, Stale;
    ConfiguredOk(w, p.pool, p.mem);
    LabelledOk(w, p);
  }

  lemma LabelledOk(w: World, p: ReplicaProc)
    requires ReplicaInv(w, p)
    ensures ReplicaFacts(w, Labelled(p.pool, p.mem))
    ensures MayOwn(p) ==>
      var m := Labelled(p.pool, p.mem);
      && ReplicaFacts(w, m.(claim := m.claim.(controller := Some(PoolOwner(p.pool.uid)))))
      && ReplicaFacts(w, m.(claim := m.claim.(controller := Some(PoolOwner(p.pool.uid))), job := JobLabelled(p.pool, m.job)))
  {
    hide Snapshot;
  }

  // ------------------------------------------------------------ checkout steps

  /** The call that the reconcile of c, holding p, makes next is accepted with answer r
      and leads to w'. */
  ghost predicate Accepted(w: World, w': World, c: Uid, p: Proc, r: Response, listing: seq<Key>) {
    && c in w.procs && w.procs[c] == p && NextCall(p).Some? && p.checkout.uid == c
    && w' == StepAdvance(w, c, None, listing) && r == Serve(w.cluster, NextCall(p).value, listing).1 && !r.Refused?
  }

  /** A call that reads. */
  lemma ReadCallOk(w: World, w': World, c: Uid, p: Proc, r: Response, listing: seq<Key>)
    requires Core(w) && ProcInv(w, c, p) && SameCore(w, w') && Accepted(w, w', c, p, r, listing)
    requires p.pc.ReadLocked? || p.pc.ReadLockedVolume? || p.pc.ReadFinal? || p.pc.ReadFinalVolume?
          || p.pc.ReadPool? || p.pc.Scanning?
    ensures ProcInv(w', c, Resume(p, r))
  {
    hide ProcInv, Resume, Core, SameCore, StepAdvance;
    match p.pc {
      case ReadLocked => ReadLockedOk(w, c, p);
      case ReadLockedVolume => ReadLockedVolumeOk(w, c, p);
      case ReadFinal => ReadFinalOk(w, c, p);
      case ReadFinalVolume =>
        var n := p.mem.claim.spec.volumeName;
        ReadFinalVolumeOk(w, c, p, if n.Some? then Find(w.cluster.volumes, n.value) else None);
      case ReadPool => ReadPoolOk(w, c, p, Find(w.cluster.pools, p.checkout.pool));
      case Scanning => ScanningOk(w, c, p, listing);
    }
    assert ProcInv(w, c, Resume(p, r));
    SameProc(w, w', c, Resume(p, r));
  }

  lemma SameProc(w: World, w': World, c: Uid, q: Proc)
    requires Core(w) && ProcInv(w, c, q) && SameCore(w, w')
    ensures ProcInv(w', c, q)
  {
    hide CheckoutInv, HistoryInv, Configured, Grows, ReplicaFacts, ProcKnows, Core, Rely;
    Unchanged(w, w');
    hide ProcInv;
    ProcStable(w, w', c, q);
  }

  lemma ClaimCallShape(w: World, w': World, c: Uid, p: Proc, r: Response, listing: seq<Key>) returns (cl: Claim)
    requires Accepted(w, w', c, p, r, listing) && (p.pc.WriteLocked? || p.pc.WriteFinal?)
    ensures r == StoredClaim(cl)
    ensures p.pc.WriteLocked? ==> PutByOwner(w, w', c, p.checkout.lockedKey, p.mem.locked, cl)
    ensures p.pc.WriteFinal? ==> PutByOwner(w, w', c, p.checkout.claimKey, p.mem.claim, cl)
  {
    PutResponses(w.cluster, p.checkout.lockedKey, p.mem.locked);
    PutResponses(w.cluster, p.checkout.claimKey, p.mem.claim);
    hide ServePutClaim, Resume;
    cl := r.claim;
  }

  /** A claim written by the reconcile and accepted by the server. */
  lemma WriteClaimCall(w: World, w': World, c: Uid, p: Proc, r: Response, listing: seq<Key>)
    requires Core(w) && ProcInv(w, c, p) && Accepted(w, w', c, p, r, listing) && (p.pc.WriteLocked? || p.pc.WriteFinal?)
    ensures Harmless(w, w', Some(c)) && ProcInv(w', c, Resume(p, r))
  {
    hide ProcInv, Core, Harmless, Accepted, PutByOwner, Resume;
    var cl := ClaimCallShape(w, w', c, p, r, listing);
    if p.pc.WriteLocked? {
      WriteLockedOk(w, w', c, p, cl);
    } else {
      WriteFinalOk(w, w', c, p, cl);
    }
  }

  lemma LockedVolumeCall(w: World, w': World, c: Uid, p: Proc, r: Response, listing: seq<Key>) returns (v: Volume)
    requires Accepted(w, w', c, p, r, listing) && p.pc.WriteLockedVolume? && p.seen.lockedVolume.Some?
    ensures r == StoredVolume(v) && LockedVolumeStored(w, w', c, p, v)
  {
    hide Resume, ServePutVolume, ServePutClaim, ServePutJob, ServeDropJob, ServeDropClaim, ServeDropVolume, IsListing,
      NextScanCall;
    PutVolumeResponses(w.cluster, p.mem.lockedVolume.value.name, p.mem.lockedVolume.value.volume);
    v := r.volume;
  }

  lemma FinalVolumeCall(w: World, w': World, c: Uid, p: Proc, r: Response, listing: seq<Key>) returns (v: Volume)
    requires Accepted(w, w', c, p, r, listing) && p.pc.WriteFinalVolume?
    ensures r == StoredVolume(v) && FinalVolumeStored(w, w', p, v)
  {
    hide Resume, ServePutVolume, ServePutClaim, ServePutJob, ServeDropJob, ServeDropClaim, ServeDropVolume, IsListing,
      NextScanCall;
    PutVolumeResponses(w.cluster, p.mem.volume.value.name, p.mem.volume.value.volume);
    v := r.volume;
  }

  lemma SeenLocked(w: World, c: Uid, p: Proc)
    requires ProcInv(w, c, p) && p.pc.WriteLockedVolume?
    ensures p.seen.lockedVolume.Some?
  {
    hide Configured, Snapshot, Adopted, Handed, Untaken, Standing, Looking;
  }

  /** A volume written by the reconcile and accepted by the server. */
  lemma WriteVolumeCall(w: World, w': World, c: Uid, p: Proc, r: Response, listing: seq<Key>)
    requires Core(w) && ProcInv(w, c, p) && Accepted(w, w', c, p, r, listing)
    requires p.pc.WriteLockedVolume? || p.pc.WriteFinalVolume?
    ensures Harmless(w, w', Some(c)) && ProcInv(w', c, Resume(p, r))
  {
    hide ProcInv, Core, Harmless, Accepted, LockedVolumeStored, FinalVolumeStored, Resume;
    if p.pc.WriteLockedVolume? {
      SeenLocked(w, c, p);
      var v := LockedVolumeCall(w, w', c, p, r, listing);
      WriteLockedVolumeOk(w, w', c, p, v);
    } else {
      var v := FinalVolumeCall(w, w', c, p, r, listing);
      WriteFinalVolumeOk(w, w', c, p, v);
    }
  }

  lemma RemoveCallShape(w: World, w': World, c: Uid, p: Proc, r: Response, listing: seq<Key>) returns (existed: bool)
    requires Accepted(w, w', c, p, r, listing) && (p.pc.RemoveLockedVolume? || p.pc.RemoveLocked?)
    ensures r == Dropped(existed)
    ensures p.pc.RemoveLockedVolume? ==> VolumeDropped(w, w', p, existed)
    ensures p.pc.RemoveLocked? ==> ClaimDropped(w, w', p, existed)
  {
    hide Resume;
    if p.pc.RemoveLockedVolume? {
      DropResponses(w.cluster, p.checkout.lockedKey, p.mem.lockedVolume.value.name, p.mem.lockedVolume.value.volume.uid);
    } else {
      DropResponses(w.cluster, p.checkout.lockedKey, Provisioned(0), p.mem.locked.uid);
    }
    hide ServeDropClaim, ServeDropVolume;
    existed := r.existed;
  }

  /** A deletion asked for by the reconcile. */
  lemma RemoveCall(w: World, w': World, c: Uid, p: Proc, r: Response, listing: seq<Key>)
    requires Core(w) && ProcInv(w, c, p) && Accepted(w, w', c, p, r, listing)
    requires p.pc.RemoveLockedVolume? || p.pc.RemoveLocked?
    ensures Harmless(w, w', Some(c)) && ProcInv(w', c, Resume(p, r))
  {
    hide ProcInv, Core, Harmless, Accepted, VolumeDropped, ClaimDropped, Resume;
    var existed := RemoveCallShape(w, w', c, p, r, listing);
    if p.pc.RemoveLockedVolume? {
      RemoveLockedVolumeOk(w, w', c, p, existed);
    } else {
      RemoveLockedOk(w, w', c, p, existed);
    }
  }

  lemma PutResponses(s: Cluster, k: Key, o: Claim)
    ensures ServePutClaim(s, k, o).1.Refused? || ServePutClaim(s, k, o).1.StoredClaim?
  {
  }

  lemma PutVolumeResponses(s: Cluster, n: VolumeName, o: Volume)
    ensures ServePutVolume(s, n, o).1.Refused? || ServePutVolume(s, n, o).1.StoredVolume?
  {
  }

  lemma DropResponses(s: Cluster, k: Key, n: VolumeName, uid: Uid)
    ensures ServeDropClaim(s, k, uid).1.Refused? || ServeDropClaim(s, k, uid).1.Dropped?
    ensures ServeDropVolume(s, n, uid).1.Refused? || ServeDropVolume(s, n, uid).1.Dropped?
  {
  }

  lemma RefusedUnchanged(s: Cluster, req: Request, listing: seq<Key>)
    requires Serve(s, req, listing).1.Refused?
    ensures Serve(s, req, listing).0 == s
  {
  }

  /** One API call of a checkout's reconcile, whatever the answer. */
  lemma AdvanceOk(w: World, w': World, c: Uid, fault: Option<ApiError>, listing: seq<Key>)
    requires Core(w) && c in w.procs && ProcAt(w, c) && w' == StepAdvance(w, c, fault, listing)
    ensures Harmless(w, w', Some(c)) && ProcAt(w', c)
  {
    hide Resume, ProcInv, Serve, CheckoutInv, Extends, NextCall, Core, Harmless, ResumeScan;
    var p := w.procs[c];
    if NextCall(p).None? {
      Unchanged(w, w');
      Weaker(w, w', Some(c));
    } else {
      var req := NextCall(p).value;
      var r := Called(w, req, fault, listing).1;
      if r.Refused? {
        if fault.None? {
          RefusedUnchanged(w.cluster, req, listing);
        }
        Unchanged(w, w');
        Weaker(w, w', Some(c));
        RefusedOk(w, c, p, r.error);
        SameProc(w, w', c, Resume(p, r));
      } else {
        ProcUid(w, c, p);
        AcceptedOk(w, w', c, p, r, listing);
      }
    }
  }

  lemma ProcUid(w: World, c: Uid, p: Proc)
    requires ProcInv(w, c, p)
    ensures p.checkout.uid == c
  {
    hide ProcKnows;
  }

  lemma AcceptedOk(w: World, w': World, c: Uid, p: Proc, r: Response, listing: seq<Key>)
    requires Core(w) && ProcInv(w, c, p) && Accepted(w, w', c, p, r, listing)
    ensures Harmless(w, w', Some(c)) && ProcInv(w', c, Resume(p, r))
  {
    hide Core, Harmless, Resume, Serve, Extends, CheckoutInv, Configured, Snapshot, Rely, ReplicaFacts, NextScanCall,
      AtWriteFinalVolume, AtWriteLockedVolume, AtWriteFinal, AtWriteLocked, Takeable, FinalUnbound, FinalBound;
    if p.pc.WriteLocked? || p.pc.WriteFinal? {
      WriteClaimCall(w, w', c, p, r, listing);
    } else if p.pc.WriteLockedVolume? || p.pc.WriteFinalVolume? {
      WriteVolumeCall(w, w', c, p, r, listing);
    } else if p.pc.RemoveLockedVolume? || p.pc.RemoveLocked? {
      RemoveCall(w, w', c, p, r, listing);
    } else {
      ReadsOnly(w.cluster, p, listing);
      hide NextCall;
      Unchanged(w, w');
      Weaker(w, w', Some(c));
      ReadCallOk(w, w', c, p, r, listing);
    }
  }

  lemma ReadsOnly(s: Cluster, p: Proc, listing: seq<Key>)
    requires NextCall(p).Some?
    requires p.pc.ReadLocked? || p.pc.ReadLockedVolume? || p.pc.ReadFinal? || p.pc.ReadFinalVolume?
          || p.pc.ReadPool? || p.pc.Scanning?
    requires p.pc.Scanning? && p.scan.pc == Reading ==>
      p.scan.cur.pc.LoadJob? || p.scan.cur.pc.LoadClaim? || p.scan.cur.pc.LoadVolume?
    ensures Serve(s, NextCall(p).value, listing).0 == s
  {
    hide ServePutClaim;
  }

  // --------------------------------------------------------------------- runs

  /** Steps of Kubernetes and of users. */
  lemma AroundSafe(w: World, e: Event)
    requires Core(w) && !ByCheckout(e) && !ByPool(e)
    ensures Harmless(w, StepAround(w, e), None)
  {
    hide Core, Harmless, StepProvision, StepBind, StepMarkLost, StepReclaim, StepFinalizeClaim, StepFinalizeVolume,
      StepCreateClaim, StepEditClaim, StepRemoveClaim, StepEndJob, CheckoutInv, Extends, VolumeShape;
    match e
    case Provision(k, spec, labels, annotations) => ProvisionSafe(w, k, spec, labels, annotations);
    case Bind(k, v) => BindSafe(w, k, v);
    case MarkLost(k) => MarkLostSafe(w, k);
    case Reclaim(v) => ReclaimSafe(w, v);
    case FinalizeClaim(k) => FinalizeClaimSafe(w, k);
    case FinalizeVolume(v) => FinalizeVolumeSafe(w, v);
    case EndJob(k, outcome) => EndJobSafe(w, k, outcome);
    case CollectJob(k) => CollectJobSafe(w, k);
    case CreateClaim(k, c) => CreateClaimSafe(w, k, c);
    case EditClaim(k, c) => EditClaimSafe(w, k, c);
    case RemoveClaim(k) => RemoveClaimSafe(w, k);
    case _ => Unchanged(w, StepAround(w, e));
  }

  lemma OutsideProcs(w: World, e: Event)
    requires Actor(e).None?
    ensures Step(w, e).procs == w.procs
    ensures !ByPool(e) ==> Step(w, e).replicas == w.replicas
  {
    hide ConfiguredReplica, Persisting, Deleting, StartReplica, Called, ResumeReplica, NextReplicaCall, StepAdvance,
      StepChoose, StepAround;
    StepParts(w, e);
    AroundMemory(w, e);
  }

  lemma EndJobSafe(w: World, k: Key, outcome: JobOutcome)
    requires Core(w)
    ensures Harmless(w, StepEndJob(w, k, outcome), None)
  {
    hide CheckoutInv, VolumeShape, Rely, Grows, VolumesInv;
    var w' := StepEndJob(w, k, outcome);
    EndJobFrame(w, k, outcome);
    EndJobJobs(w, k, outcome);
    hide StepEndJob, JobsInv;
    PlainGrowth(w, w');
    hide Core, Harmless;
    JobsOnly(w, w');
  }

  lemma EndJobFrame(w: World, k: Key, outcome: JobOutcome)
    ensures var w' := StepEndJob(w, k, outcome);
      && SameHistory(w, w') && w'.destroyed == w.destroyed
      && w'.cluster.claims == w.cluster.claims && w'.cluster.volumes == w.cluster.volumes
      && w'.cluster.next == w.cluster.next
  {
    if k in w.cluster.jobs && w.cluster.jobs[k].outcome == Running {
      var j := w.cluster.jobs[k := w.cluster.jobs[k].(outcome := outcome)];
      assert StepEndJob(w, k, outcome).cluster == w.cluster.(jobs := j);
    }
  }

  lemma EndJobJobs(w: World, k: Key, outcome: JobOutcome)
    requires JobsInv(w) && InitsInv(w.inits, w.cluster.next)
    ensures var w' := StepEndJob(w, k, outcome);
      JobsInv(w') && Learns(w.inits, w'.inits) && InitsInv(w'.inits, w'.cluster.next)
  {
    hide LiveUid, Learns, InitsInv, Ran;
    SameInits(w.inits, w.cluster.next);
    if k in w.cluster.jobs && w.cluster.jobs[k].outcome == Running {
      MoreRan(w.inits, w.cluster.next, w.cluster.jobs[k].owner);
    }
  }

  lemma SameInits(i: Inits, next: nat)
    requires InitsInv(i, next)
    ensures Learns(i, i)
  {
  }

  lemma MoreRan(i: Inits, next: nat, owner: Uid)
    requires InitsInv(i, next) && owner in i.named
    ensures var i' := i.(ran := i.ran + {owner}); Learns(i, i') && InitsInv(i', next)
  {
  }

  lemma CollectJobSafe(w: World, k: Key)
    requires Core(w)
    ensures Harmless(w, StepAround(w, CollectJob(k)), None)
  {
    hide CheckoutInv, VolumeShape, StepProvision, StepBind, StepMarkLost, StepReclaim, StepFinalizeClaim,
      StepFinalizeVolume, StepCreateClaim, StepEditClaim, StepRemoveClaim, StepEndJob, Harmless, VolumesInv,
      ClaimsOnly;
    var w' := StepAround(w, CollectJob(k));
    assert JobsInv(w');
    PlainGrowth(w, w');
    hide Core;
    JobsOnly(w, w');
  }

  lemma PlainGrowth(w: World, w': World)
    requires Core(w) && SameHistory(w, w') && w'.destroyed == w.destroyed
    requires w'.inits == w.inits || (Learns(w.inits, w'.inits) && InitsInv(w'.inits, w'.cluster.next))
    requires w'.cluster.volumes == w.cluster.volumes && w.cluster.next <= w'.cluster.next
    ensures ClaimsOnly(w, w')
  {
    hide VolumesInv, CheckoutInv, HistoryInv, ClaimsInv, Grows;
    PlainStep(w, w');
  }

  lemma Weaker(w: World, w': World, actor: Option<Uid>)
    requires Harmless(w, w', None)
    ensures Harmless(w, w', actor)
  {
    hide Core, Extends, Rely;
  }

  /** No step of anybody breaks the cluster's invariant or what others rely on. */
  lemma StepHarmless(w: World, e: Event)
    requires Inv(w)
    ensures Harmless(w, Step(w, e), Actor(e))
  {
    hide StepAdvance, StepAdvanceReplica, StepPool, StepAround, CheckoutInv, Extends, VolumeShape, Core, Harmless,
      ProcInv, ReplicaInv, StepChoose;
    var w' := Step(w, e);
    StepParts(w, e);
    if !ByCheckout(e) && !ByPool(e) {
      AroundSafe(w, e);
    } else if e.Advance? && e.c in w.procs {
      AdvanceOk(w, w', e.c, e.fault, e.listing);
    } else if e.AdvanceReplica? && e.id in w.replicas {
      AdvancesReplica(w, e.id, e.fault);
      ReplicaCallSafe(w, e.id, e.fault);
    } else {
      LocalSame(w, e);
      hide Step, SameCore;
      Unchanged(w, w');
      Weaker(w, w', Actor(e));
    }
  }

  lemma AdvancesReplica(w: World, id: nat, fault: Option<ApiError>)
    ensures Step(w, AdvanceReplica(id, fault)) == StepAdvanceReplica(w, id, fault)
  {
    hide StepAdvanceReplica, ConfiguredReplica, Persisting, Deleting, StartReplica, StepAround, StepAdvance,
      StepChoose;
  }

  /** Steps inside a controller's memory. */
  lemma LocalSame(w: World, e: Event)
    requires ByCheckout(e) || ByPool(e)
    requires e.Advance? ==> e.c !in w.procs
    requires e.AdvanceReplica? ==> e.id !in w.replicas
    ensures SameCore(w, Step(w, e))
  {
    hide StepAround, Resume, Called, StepChoose, ResumeReplica, ConfiguredReplica;
    if e.Advance? || e.AdvanceReplica? {
      hide NextCall, Persisting;
    } else {
      hide Step;
      MemoryOnly(w, e);
    }
  }

  lemma OwnProcOk(w: World, e: Event, c: Uid)
    requires Inv(w) && Actor(e) == Some(c)
    ensures ProcAt(Step(w, e), c)
  {
    hide Core, Harmless, Resume, Called, Snapshot, NextCall, Configured, Looking, ReplicaInv, VolumeSeen, StepPool,
      Chosen, AtReadFinalVolume;
    var w' := Step(w, e);
    match e
    case Begin(_, pool, modes) =>
    case Choose(_, i) =>
      hide ProcInv, Oldest;
      if c in w.procs {
        ChooseOk(w, c, i);
      }
    case Advance(_, fault, listing) =>
      hide ProcInv, StepAdvance;
      if c in w.procs {
        AdvanceOk(w, w', c, fault, listing);
      } else {
        NobodyAdvances(w, c, fault, listing);
      }
    case Crash(_) =>
  }

  lemma NobodyAdvances(w: World, c: Uid, fault: Option<ApiError>, listing: seq<Key>)
    requires c !in w.procs
    ensures StepAdvance(w, c, fault, listing) == w
  {
    hide NextCall, Resume, Called, Recorded;
  }

  lemma ChooseOk(w: World, c: Uid, i: nat)
    requires Core(w) && c in w.procs && ProcAt(w, c)
    ensures ProcAt(StepChoose(w, c, i), c)
  {
    hide Core, ProcInv, Chosen;
    var w' := StepChoose(w, c, i);
    if w.procs[c].pc == Choosing && Oldest(w.procs[c].scan.available, i) {
      ChosenOk(w, c, w.procs[c], i);
    }
    SameProc(w, w', c, w'.procs[c]);
  }

  /** What the reconcile of c holds is as before. */
  ghost predicate SameHeld(w: World, w': World, c: Uid) {
    && (c in w'.procs <==> c in w.procs)
    && (c in w.procs ==> w'.procs[c] == w.procs[c])
  }

  lemma OtherProcs(w: World, e: Event, c: Uid)
    requires Actor(e) != Some(c)
    ensures SameHeld(w, Step(w, e), c)
  {
    hide Resume, Called, Chosen, NextCall, StepPool;
    if Actor(e).None? {
      OutsideProcs(w, e);
    }
  }

  lemma StepProcs(w: World, e: Event)
    requires Inv(w) && Harmless(w, Step(w, e), Actor(e))
    ensures ProcsInv(Step(w, e))
  {
    hide Step, ProcInv, ReplicaInv, Core, Extends, Rely;
    var w' := Step(w, e);
    forall c | c in w'.procs ensures ProcInv(w', c, w'.procs[c]) {
      if Actor(e) == Some(c) {
        OwnProcOk(w, e, c);
      } else {
        OtherProcs(w, e, c);
        assert ProcInv(w, c, w.procs[c]);
        InCheckouts(w, c, w.procs[c]);
        ProcStable(w, w', c, w.procs[c]);
      }
    }
  }

  lemma InCheckouts(w: World, c: Uid, p: Proc)
    requires ProcInv(w, c, p)
    ensures c in w.checkouts
  {
    hide ProcKnows;
  }

  /** What a pool's controller makes of a replica in memory, calls apart. */
  predicate Worked(p: ReplicaProc, q: ReplicaProc) {
    q == p.(mem := ConfiguredReplica(p.pool.spec, p.mem)) || q == Persisting(p) || (MayOwn(p) && q == Deleting(p))
  }

  /** What a step other than its own call leaves of replica id in memory. */
  predicate Moved(w: World, w': World, e: Event, id: nat) {
    id in w'.replicas ==>
      var q := w'.replicas[id];
      || (id in w.replicas && q == w.replicas[id])
      || (e.BeginReplica? && PHASE_KEY !in e.owner.spec.template.annotations && q == StartReplica(e.owner, e.key))
      || (id in w.replicas && Idle(w.replicas[id]) && Worked(w.replicas[id], q))
  }

  lemma OtherReplicas(w: World, e: Event, id: nat)
    requires e.AdvanceReplica? ==> e.id != id
    ensures Moved(w, Step(w, e), e, id)
  {
    hide ConfiguredReplica, Persisting, Deleting, StepAdvance, Called, StepChoose, ResumeReplica, StepAround;
    if Actor(e).None? {
      OutsideProcs(w, e);
    } else {
      CheckoutReplicas(w, e);
    }
  }

  lemma CheckoutReplicas(w: World, e: Event)
    requires Actor(e).Some?
    ensures Step(w, e).replicas == w.replicas
  {
    hide Resume, Called, Chosen, NextCall, StepPool;
  }

  lemma StepReplicas(w: World, e: Event)
    requires Inv(w) && Core(Step(w, e)) && Extends(w, Step(w, e))
    ensures ReplicasInv(Step(w, e))
  {
    hide Step, Core, Extends, ProcInv, ReplicaInv, StepAdvanceReplica, Moved;
    var w' := Step(w, e);
    forall id | id in w'.replicas ensures ReplicaInv(w', w'.replicas[id]) {
      if e.AdvanceReplica? && e.id == id && id in w.replicas {
        AdvancesReplica(w, id, e.fault);
        ReplicaStepOk(w, w', id, e.fault);
      } else if e.AdvanceReplica? && e.id == id {
        NoneAdvances(w, id, e.fault);
      } else {
        OtherReplicas(w, e, id);
        MovedOk(w, w', e, id);
      }
    }
  }

  lemma NoneAdvances(w: World, id: nat, fault: Option<ApiError>)
    requires id !in w.replicas
    ensures Step(w, AdvanceReplica(id, fault)) == w
  {
    hide NextReplicaCall, ResumeReplica, Called, Noted, StepAround, StepAdvance, StepChoose, ConfiguredReplica,
      Persisting;
  }

  lemma MovedOk(w: World, w': World, e: Event, id: nat)
    requires MemAt(w, id) && Moved(w, w', e, id) && Extends(w, w')
    ensures MemAt(w', id)
  {
    hide Extends, Persisting, Deleting, ConfiguredReplica, Idle, MayOwn, ReplicaFacts;
    if id in w'.replicas {
      var q := w'.replicas[id];
      if id in w.replicas {
        hide ReplicaInv;
        if Idle(w.replicas[id]) {
          ReplicaLocalOk(w, w.replicas[id]);
        }
      }
      if ReplicaInv(w, q) {
        ReplicaIdle(w, w', q);
      } else {
        StartedOk(w', e);
      }
    }
  }

  lemma StartedOk(w: World, e: Event)
    requires e.BeginReplica? && PHASE_KEY !in e.owner.spec.template.annotations
    ensures ReplicaInv(w, StartReplica(e.owner, e.key))
  {
  }

  /** The invariant is inductive. */
  lemma StepKeepsInv(w: World, e: Event)
    requires Inv(w)
    ensures Inv(Step(w, e)) && Harmless(w, Step(w, e), Actor(e))
  {
    hide Step, ProcInv, Core, ReplicaInv, Extends, Rely;
    StepHarmless(w, e);
    StepProcs(w, e);
    StepReplicas(w, e);
  }

  /** It holds in every state of every run: any number of checkouts and pools,
      any interleaving of API calls, any failures, any crashes. */
  lemma {:induction false} RunKeepsInv(w: World, es: seq<Event>)
    requires Inv(w)
    ensures Inv(Run(w, es))
  {
    hide Step, ProcInv, Harmless, CheckoutInv, ReplicaInv, VolumeShape, Inv;
    if es != [] {
      RunKeepsInv(w, es[..|es| - 1]);
      StepKeepsInv(Run(w, es[..|es| - 1]), es[|es| - 1]);
    }
  }

  lemma InitInv(w: World)
    requires Init(w)
    ensures Inv(w)
  {
    hide ProcInv, ReplicaInv, VolumeShape;
  }

  /** A state some run reaches. */
  ghost predicate Reachable(w: World) {
    exists w0: World, es: seq<Event> :: Init(w0) && w == Run(w0, es)
  }

  lemma ReachableInv(w: World)
    requires Reachable(w)
    ensures Inv(w)
  {
    hide Run, ProcInv, CheckoutInv, ReplicaInv, VolumeShape, HistoryInv, Inv;
    var w0: World, es: seq<Event> :| Init(w0) && w == Run(w0, es);
    InitInv(w0);
    RunKeepsInv(w0, es);
  }

  lemma {:induction false} ReachableRun(w: World, es: seq<Event>)
    requires Reachable(w)
    ensures Reachable(Run(w, es))
  {
    hide Reachable, Step;
    if es != [] {
      ReachableRun(w, es[..|es| - 1]);
      ReachableStep(Run(w, es[..|es| - 1]), es[|es| - 1]);
    }
  }

  lemma ReachableStep(w: World, e: Event)
    requires Reachable(w)
    ensures Reachable(Step(w, e))
  {
    hide Step;
    var w0: World, es: seq<Event> :| Init(w0) && w == Run(w0, es);
    assert (es + [e])[..|es|] == es;
    assert Run(w0, es + [e]) == Step(w, e);
  }

  lemma InvRefers(w: World)
    requires Inv(w)
    ensures Referring(w.cluster)
  {
    hide ProcInv, CheckoutInv, ReplicaInv, ClaimsInv, HistoryInv;
    forall n | n in w.cluster.volumes ensures w.cluster.volumes[n].spec.claimRef.Some? {
      assert VolumeShape(w, n, w.cluster.volumes[n]);
    }
  }
}
