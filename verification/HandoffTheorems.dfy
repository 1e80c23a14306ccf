/** What the handoff guarantees in every state and over every run. */
module HandoffTheorems {
  import opened Labels
  import opened Kube
  import opened Replica
  import opened Checkouts
  import opened World
  import opened HandoffInvariant
  import opened HandoffSteps
  import opened HandoffRuns

  // ------------------------------------------------------- what one step may do

  /** What any step does to the claim at k: it keeps its UID or is new and pending,
      goes only if marked, and its phase moves only to bound or, from bound, to lost. */
  ghost predicate ClaimPersists(w: World, w': World, e: Event, k: Key) {
    && (k in w'.cluster.claims ==>
          if k in w.cluster.claims then w'.cluster.claims[k].uid == w.cluster.claims[k].uid
          else w.cluster.next <= w'.cluster.claims[k].uid)
    && (k in w.cluster.claims && !w.cluster.claims[k].deleting ==> k in w'.cluster.claims)
    && (k in w.cluster.claims && k in w'.cluster.claims && w'.cluster.claims[k].phase != w.cluster.claims[k].phase ==>
          || (w.cluster.claims[k].phase == Pending && w'.cluster.claims[k].phase == Bound)
          || (e.MarkLost? && e.key == k && MayLose(w.cluster, k)))
    && (k !in w.cluster.claims && k in w'.cluster.claims ==> w'.cluster.claims[k].phase == Pending)
  }

  /** A replaced claim keeps what identifies it. */
  lemma ServeClaims(s: Cluster, req: Request, listing: seq<Key>, k: Key)
    ensures var s' := Serve(s, req, listing).0;
      && (k in s'.claims ==>
            if k in s.claims then s'.claims[k].uid == s.claims[k].uid
            else s.next <= s'.claims[k].uid && s'.claims[k].phase == Pending)
      && (k in s.claims ==> k in s'.claims && s'.claims[k].phase == s.claims[k].phase)
  {
  }

  lemma CalledClaims(w: World, req: Request, fault: Option<ApiError>, listing: seq<Key>, k: Key)
    ensures var s' := Called(w, req, fault, listing).0;
      && (k in s'.claims ==>
            if k in w.cluster.claims then s'.claims[k].uid == w.cluster.claims[k].uid
            else w.cluster.next <= s'.claims[k].uid && s'.claims[k].phase == Pending)
      && (k in w.cluster.claims ==> k in s'.claims && s'.claims[k].phase == w.cluster.claims[k].phase)
  {
    ServeClaims(w.cluster, req, listing, k);
    hide Serve;
  }

  /** What a step does to the claim at k. */
  lemma StepClaim(w: World, e: Event, k: Key)
    ensures ClaimPersists(w, Step(w, e), e, k)
  {
    hide Resume, Called, StepChoose, ResumeReplica, ConfiguredReplica, Persisting, NextCall, Noted, NextReplicaCall,
      Recorded, StepAround;
    match e
    case Advance(c, fault, listing) =>
      if c in w.procs && NextCall(w.procs[c]).Some? {
        CalledClaims(w, NextCall(w.procs[c]).value, fault, listing, k);
      }
    case AdvanceReplica(id, fault) =>
      if id in w.replicas && NextReplicaCall(w.replicas[id]).Some? {
        CalledClaims(w, NextReplicaCall(w.replicas[id]).value, fault, [], k);
      }
    case _ =>
      StepClaimOutside(w, e, k);
  }

  lemma StepClaimOutside(w: World, e: Event, k: Key)
    requires !e.Advance? && !e.AdvanceReplica?
    ensures ClaimPersists(w, Step(w, e), e, k)
  {
    hide Step, StepPool, StepAround, ClaimPersists;
    StepParts(w, e);
    if ByCheckout(e) || ByPool(e) {
      MemoryOnly(w, e);
      SamePersists(w, Step(w, e), e, k);
    } else {
      AroundPersists(w, e, k);
    }
  }

  lemma AroundPersists(w: World, e: Event, k: Key)
    requires !ByCheckout(e) && !ByPool(e)
    ensures ClaimPersists(w, StepAround(w, e), e, k)
  {
    hide ClaimPersists, WithClaim, RefersTo, CheckoutOwned, Marked, LiveUid, MayProvision, MayReclaim;
    var w', s := StepAround(w, e), w.cluster;
    if w'.cluster.claims == s.claims {
      SamePersists(w, w', e, k);
    } else {
      match e
      case FinalizeClaim(_) => FinalizePersists(w, e, k);
      case Bind(k', v) =>
        ReplacePersists(w, e, k', s.claims[k'].(phase := Bound, spec := s.claims[k'].spec.(volumeName := Some(v))), k);
      case MarkLost(k') => ReplacePersists(w, e, k', s.claims[k'].(phase := Lost), k);
      case CreateClaim(k', c) =>
        var c' := c.(uid := s.next, created := s.next, deleting := false, phase := Pending);
        ReplacePersists(w, e, k', c', k);
        PersistsCluster(w, WithClaim(w, k', c'), w', e, k);
      case EditClaim(k', c) =>
        var o := s.claims[k'];
        ReplacePersists(w, e, k', c.(uid := o.uid, created := o.created, deleting := o.deleting, phase := o.phase), k);
      case RemoveClaim(k') => ReplacePersists(w, e, k', s.claims[k'].(deleting := true), k);
      case _ =>
    }
  }

  lemma PersistsCluster(w: World, v: World, v': World, e: Event, k: Key)
    requires ClaimPersists(w, v, e, k) && v'.cluster == v.cluster
    ensures ClaimPersists(w, v', e, k)
  {
  }

  lemma SamePersists(w: World, w': World, e: Event, k: Key)
    requires w'.cluster.claims == w.cluster.claims
    ensures ClaimPersists(w, w', e, k)
  {
    hide MayLose;
  }

  lemma FinalizePersists(w: World, e: Event, k: Key)
    requires e.FinalizeClaim?
    ensures ClaimPersists(w, StepFinalizeClaim(w, e.key), e, k)
  {
  }

  lemma ReplacePersists(w: World, e: Event, k': Key, c: Claim, k: Key)
    requires k' in w.cluster.claims ==>
      var o := w.cluster.claims[k'];
      && c.uid == o.uid
      && (c.phase == o.phase || (o.phase == Pending && c.phase == Bound) || (e.MarkLost? && e.key == k' && MayLose(w.cluster, k')))
    requires k' !in w.cluster.claims ==> c.uid == w.cluster.next && c.phase == Pending
    ensures ClaimPersists(w, WithClaim(w, k', c), e, k)
  {
    hide MayLose;
  }

  /** A step removes a volume only by reclaiming it or by finalizing one that was
      marked, and destroys storage only by reclaiming. */
  lemma StepVolume(w: World, e: Event, n: VolumeName)
    requires n in w.cluster.volumes && n !in Step(w, e).cluster.volumes
    ensures (e == Reclaim(n) && MayReclaim(w.cluster, n))
         || (e == FinalizeVolume(n) && w.cluster.volumes[n].deleting)
  {
    hide MayReclaim, Resume, Called, StepChoose, ResumeReplica, ConfiguredReplica, Persisting, NextCall, Noted,
      NextReplicaCall, Recorded, Deleting, StepAround;
    if e.Advance? {
      if e.c in w.procs && NextCall(w.procs[e.c]).Some? {
        CalledVolumes(w, NextCall(w.procs[e.c]).value, e.fault, e.listing, n);
      }
    } else if e.AdvanceReplica? {
      if e.id in w.replicas && NextReplicaCall(w.replicas[e.id]).Some? {
        CalledVolumes(w, NextReplicaCall(w.replicas[e.id]).value, e.fault, [], n);
      }
    } else if ByCheckout(e) || ByPool(e) {
      MemoryOnly(w, e);
    } else {
      StepParts(w, e);
      AroundVolumes(w, e, n);
    }
  }

  /** The storage that Kubernetes and the users destroy, and the volumes they remove. */
  lemma AroundVolumes(w: World, e: Event, n: VolumeName)
    requires !ByCheckout(e) && !ByPool(e)
    ensures n in w.cluster.volumes && n !in StepAround(w, e).cluster.volumes ==> Removes(w, e, n)
    ensures StepAround(w, e).destroyed == w.destroyed || Destroys(w, e, StepAround(w, e).destroyed)
  {
    hide LiveUid, RefersTo, MayProvision, MayBind, MayLose, MayReclaim, MayCreate, MayEdit, MayRemove;
  }

  predicate Removes(w: World, e: Event, n: VolumeName) {
    && n in w.cluster.volumes
    && ((e == Reclaim(n) && MayReclaim(w.cluster, n)) || (e == FinalizeVolume(n) && w.cluster.volumes[n].deleting))
  }

  predicate Destroys(w: World, e: Event, destroyed: set<nat>) {
    && e.Reclaim? && MayReclaim(w.cluster, e.volume)
    && destroyed == w.destroyed + {w.cluster.volumes[e.volume].spec.handle}
  }

  lemma CalledVolumes(w: World, req: Request, fault: Option<ApiError>, listing: seq<Key>, n: VolumeName)
    requires n in w.cluster.volumes
    ensures n in Called(w, req, fault, listing).0.volumes
  {
    match req
    case PutVolume(n', o) =>
    case DropVolume(n', uid) =>
    case _ =>
  }

  lemma StepDestroys(w: World, e: Event, h: nat)
    requires h !in w.destroyed && h in Step(w, e).destroyed
    ensures e.Reclaim? && MayReclaim(w.cluster, e.volume) && w.cluster.volumes[e.volume].spec.handle == h
  {
    hide Resume, Called, ResumeReplica, Chosen, ConfiguredReplica, Persisting, StepAround, NextCall, NextReplicaCall,
      Noted;
    if !ByCheckout(e) && !ByPool(e) {
      StepParts(w, e);
      AroundVolumes(w, e, Derived(0));
    } else if !e.Advance? && !e.AdvanceReplica? {
      MemoryOnly(w, e);
    }
  }

  // ------------------------------------------------------------ storage safety

  /** At most one volume object over the same storage may destroy it. */
  lemma OneDestroyer(w: World, n1: VolumeName, n2: VolumeName)
    requires Reachable(w)
    requires n1 in w.cluster.volumes && n2 in w.cluster.volumes
    requires w.cluster.volumes[n1].spec.handle == w.cluster.volumes[n2].spec.handle
    requires Destructive(w.cluster.volumes[n1].spec.reclaimPolicy)
    requires Destructive(w.cluster.volumes[n2].spec.reclaimPolicy)
    ensures n1 == n2
  {
    hide Run, ProcInv, CheckoutInv, ReplicaInv, ClaimsInv;
    ReachableInv(w);
    assert VolumeShape(w, n1, w.cluster.volumes[n1]) && VolumeShape(w, n2, w.cluster.volumes[n2]);
  }

  /** Storage a checkout took is destroyed in one way only: its requester's
      volume is reclaimed after the claim it was made for is gone, and by then
      neither claim of the checkout depends on it.  In particular deleting the
      locked claim, the locked volume or the stale pool claim destroys nothing. */
  lemma TakenStorageLost(w: World, e: Event, x: Uid)
    requires Reachable(w) && x in w.taken && x !in w.destroyed && x in Step(w, e).destroyed
    ensures e == Reclaim(Derived(x)) && Derived(x) in w.cluster.volumes && w.taken[x].checkout in w.checkouts
    ensures var r := w.cluster.volumes[Derived(x)].spec.claimRef;
      r.Some? && r.value.key == w.checkouts[w.taken[x].checkout].claim && !LiveUid(w.cluster, r.value.uid)
    ensures Uninvolved(w, w.taken[x].checkout, x)
  {
    hide Step, Reachable, ClaimsInv, CheckoutInv, ProcInv, ReplicaInv, LiveUid, Handed, Uninvolved, Anchored,
      InitsInv, Untaken;
    ReachableInv(w);
    StepDestroys(w, e, x);
    var n := e.volume;
    assert VolumeShape(w, n, w.cluster.volumes[n]);
    ReclaimedUninvolved(w, n, w.taken[x].checkout);
  }

  /** As long as the locked or the final claim of the handoff stands, the storage
      exists and some volume object still holds it. */
  lemma TakenStorageHeld(w: World, c: Uid, x: Uid)
    requires Reachable(w) && c in w.checkouts
    requires Engaged(w, c, x) || (HasFinal(w, c) && FinalClaim(w, c).spec.volumeName == Some(Derived(x)))
    ensures x !in w.destroyed
    ensures exists n :: n in w.cluster.volumes && w.cluster.volumes[n].spec.handle == x
  {
    hide Run, ProcInv, ReplicaInv, HistoryInv, ClaimsInv, VolumeShape, CheckoutInv, VolumesInv;
    ReachableInv(w);
    assert CheckoutInv(w, c);
    hide Reachable;
    HeldBy(w, c, x);
  }

  lemma HeldBy(w: World, c: Uid, x: Uid)
    requires c in w.checkouts && CheckoutInv(w, c) && VolumesInv(w)
    requires Engaged(w, c, x) || (HasFinal(w, c) && FinalClaim(w, c).spec.volumeName == Some(Derived(x)))
    ensures x !in w.destroyed
    ensures exists n :: n in w.cluster.volumes && w.cluster.volumes[n].spec.handle == x
  {
    hide Final;
    if Derived(x) in w.cluster.volumes {
      assert VolumeShape(w, Derived(x), w.cluster.volumes[Derived(x)]);
    } else {
      assert VolumeShape(w, Provisioned(x), w.cluster.volumes[Provisioned(x)]);
    }
  }

  // ---------------------------------------------------------- exclusive handoff

  lemma RunGrows(w: World, es: seq<Event>)
    requires Inv(w)
    ensures Inv(Run(w, es)) && Grows(w, Run(w, es))
  {
    hide Step, Core, ProcInv, ReplicaInv, InitsInv, Rely, Actor;
    if es != [] {
      var v := Run(w, es[..|es| - 1]);
      RunGrows(w, es[..|es| - 1]);
      StepKeepsInv(v, es[|es| - 1]);
    }
  }

  /** Once a pool volume refers to a checkout's locked claim, it refers to it for
      as long as it exists, over every continuation of the run; and no claim of
      anybody else ever has the UID it refers to. */
  lemma ExclusiveHandoff(w: World, es: seq<Event>, c: Uid, x: Uid)
    requires Reachable(w) && HasLocked(w, c)
    requires RefersTo(w.cluster, Provisioned(x), LockedClaim(w, c).uid)
    ensures var (w', n) := (Run(w, es), Provisioned(x));
      && (n in w'.cluster.volumes ==> w'.cluster.volumes[n].spec.claimRef == w.cluster.volumes[n].spec.claimRef)
      && (forall k | k in w'.cluster.claims && w'.cluster.claims[k].uid == LockedClaim(w, c).uid ::
            w'.cluster.claims[k].controller == Some(CheckoutOwner(c)))
  {
    hide Run, ProcInv, ReplicaInv, VolumeShape;
    ReachableInv(w);
    var u := LockedClaim(w, c).uid;
    LockedOnly(w, c, x);
    RunGrows(w, es);
    var w', n := Run(w, es), Provisioned(x);
    if n in w'.cluster.volumes {
      assert Taken(w', x, w'.cluster.volumes[n]);
    }
    forall k | k in w'.cluster.claims && w'.cluster.claims[k].uid == u
      ensures w'.cluster.claims[k].controller == Some(CheckoutOwner(c))
    {
      assert ClaimShape(w', k, w'.cluster.claims[k]);
    }
  }

  /** A pool volume refers to a locked claim exactly if that claim took it. */
  lemma LockedOnly(w: World, c: Uid, x: Uid)
    requires Inv(w) && HasLocked(w, c) && RefersTo(w.cluster, Provisioned(x), LockedClaim(w, c).uid)
    ensures x in w.taken && w.taken[x].checkout == c && w.taken[x].locked == LockedClaim(w, c).uid
    ensures LockedClaim(w, c).uid in w.owned && w.owned[LockedClaim(w, c).uid] == c
    ensures Taken(w, x, w.cluster.volumes[Provisioned(x)])
  {
    hide ProcInv, CheckoutInv, ReplicaInv;
    var o := w.cluster.volumes[Provisioned(x)];
    assert ClaimShape(w, w.checkouts[c].locked, LockedClaim(w, c)) && VolumeShape(w, Provisioned(x), o);
  }

  // ------------------------------------------------------- nothing is orphaned

  /** Every pool volume that is not on its way out is either untouched, or named
      by the standing locked claim it refers to: wherever a crash strikes, the
      next reconcile finds it. */
  lemma NoOrphan(w: World, x: Uid)
    requires Reachable(w) && Provisioned(x) in w.cluster.volumes && !w.cluster.volumes[Provisioned(x)].deleting
    ensures Untaken(w, x, w.cluster.volumes[Provisioned(x)])
         || exists c :: HasLocked(w, c)
              && LockedClaim(w, c).spec.volumeName == Some(Provisioned(x))
              && RefersTo(w.cluster, Provisioned(x), LockedClaim(w, c).uid)
  {
    hide Run, ProcInv, CheckoutInv, ReplicaInv, ClaimsInv;
    ReachableInv(w);
    assert VolumeShape(w, Provisioned(x), w.cluster.volumes[Provisioned(x)]);
    if x in w.taken {
      assert HasLocked(w, w.taken[x].checkout);
    }
  }

  // -------------------------------------------------------- the reclaim policy

  /** However often the handoff was retried, a pool volume carries its original
      policy itself or remembers it under Retain, and the requester's volume
      carries the original, never the temporary one. */
  lemma PolicyPreserved(w: World, n: VolumeName)
    requires Reachable(w) && n in w.cluster.volumes
    ensures var v := w.cluster.volumes[n];
      && v.spec.handle in w.origin
      && var original := w.origin[v.spec.handle].policy;
      && (n.Derived? ==> v.spec.reclaimPolicy == original)
      && (n.Provisioned? ==>
            if RECLAIM_KEY in v.annotations then v.annotations[RECLAIM_KEY] == original && v.spec.reclaimPolicy == RETAIN
            else v.spec.reclaimPolicy == original)
  {
    hide Run, ProcInv, CheckoutInv, ReplicaInv, HistoryInv, ClaimsInv;
    ReachableInv(w);
    assert VolumeShape(w, n, w.cluster.volumes[n]);
  }

  /** No label or annotation that storage was provisioned with is ever lost: every
      volume over it, the pool's and the requester's, bears them all. */
  lemma MarksPreserved(w: World, n: VolumeName)
    requires Reachable(w) && n in w.cluster.volumes
    ensures var v := w.cluster.volumes[n];
      && v.spec.handle in w.origin
      && Bears(v.labels, w.origin[v.spec.handle].labels) && Bears(v.annotations, w.origin[v.spec.handle].annotations)
  {
    hide Run, ProcInv, CheckoutInv, ReplicaInv, HistoryInv, ClaimsInv, Final, Taken, Untaken, Bears;
    ReachableInv(w);
    assert VolumeShape(w, n, w.cluster.volumes[n]);
  }

  /** The claims that checkouts write ask for just what the volume they name has: its
      class and its size and, in the locked claim, its access modes. */
  lemma ClaimsAsk(w: World, c: Uid)
    requires Reachable(w)
    ensures HasLocked(w, c) ==>
      var l := LockedClaim(w, c).spec;
      && l.volumeName.Some? && l.volumeName.value.Provisioned? && l.volumeName.value.id in w.origin
      && var o := w.origin[l.volumeName.value.id];
      l.storageClass == Some(o.storageClass) && l.request == o.capacity && l.accessModes == o.accessModes
    ensures HasFinal(w, c) ==>
      var f := FinalClaim(w, c).spec;
      && f.volumeName.Some? && f.volumeName.value.Derived? && f.volumeName.value.of in w.origin
      && var o := w.origin[f.volumeName.value.of];
      f.storageClass == Some(o.storageClass) && f.request == o.capacity
  {
    hide Run, ProcInv, ReplicaInv, HistoryInv, ClaimsInv, VolumesInv;
    ReachableInv(w);
    assert c in w.checkouts ==> CheckoutInv(w, c);
  }

  // -------------------------------------------------------------- end to end

  /** What a checkout has acquired when its final claim is bound: a volume made
      for that very claim, over storage provisioned for a replica that was
      available, not stale, its pool's own or unowned and readied when it was read,
      with that replica's size and class, the claim's access modes, CSI readOnly
      exactly for [ReadOnlyMany], and every label and annotation that the replica's
      volume had; and the claim asks for that size and class. */
  lemma Acquired(w: World, c: Uid)
    requires Reachable(w) && BoundFinal(w, c)
    ensures var f := FinalClaim(w, c);
      && f.spec.volumeName.Some? && f.spec.volumeName.value in w.cluster.volumes
      && var v := w.cluster.volumes[f.spec.volumeName.value];
      && v.spec.claimRef == Some(ClaimRef(w.checkouts[c].claim, f.uid))
      && v.spec.handle in w.origin && v.spec.handle in w.taken && v.spec.handle !in w.destroyed
      && var (o, t) := (w.origin[v.spec.handle], w.taken[v.spec.handle]);
      && t.checkout == c && Handed(w, v.spec.handle, t.pool, t.replica)
      && v.spec.capacity == o.capacity && v.spec.storageClass == o.storageClass && v.spec.reclaimPolicy == o.policy
      && v.spec.accessModes == f.spec.accessModes
      && f.spec.request == o.capacity && f.spec.storageClass == Some(o.storageClass)
      && (v.spec.csi.Some? <==> o.csi)
      && (v.spec.csi.Some? ==> (v.spec.csi.value <==> f.spec.accessModes == [ReadOnlyMany]))
    ensures var v := w.cluster.volumes[FinalClaim(w, c).spec.volumeName.value];
      var r := w.taken[v.spec.handle].replica;
      && r.volume.Some? && r.claim.phase != Lost && !r.claim.deleting && !r.job.outcome.Failed?
      && PHASE_KEY in r.claim.annotations && r.claim.annotations[PHASE_KEY] == AVAILABLE
      && Bears(v.labels, r.volume.value.volume.labels) && Bears(v.annotations, r.volume.value.volume.annotations)
  {
    hide Run, ProcInv, ReplicaInv, ClaimsInv;
    ReachableInv(w);
    assert CheckoutInv(w, c);
    var n := FinalClaim(w, c).spec.volumeName.value;
    assert VolumeShape(w, n, w.cluster.volumes[n]);
    ReadOnlyIff(FinalClaim(w, c).spec.accessModes);
  }

  lemma ReadOnlyIff(modes: seq<AccessMode>)
    ensures ReadOnly(modes) <==> modes == [ReadOnlyMany]
  {
  }

  // --------------------------------------------------------- monotone recovery

  /** How far the handoff of storage x, once taken, has come: 2 re-pointed, 3
      final claim created, 4 its volume created, 5 bound, 6 locked volume on its
      way out, 7 locked claim gone. */
  function Stage(w: World, x: Uid): nat
    requires x in w.taken
  {
    var c := w.taken[x].checkout;
    if !HasLocked(w, c) || LockedClaim(w, c).uid != w.taken[x].locked then 7
    else if Provisioned(x) !in w.cluster.volumes || w.cluster.volumes[Provisioned(x)].deleting then 6
    else if HasFinal(w, c) && FinalClaim(w, c).phase == Bound then 5
    else if Derived(x) in w.cluster.volumes then 4
    else if HasFinal(w, c) then 3
    else 2
  }

  lemma FinalPersists(w: World, w': World, e: Event, c: Uid, x: Uid)
    requires Core(w) && Core(w') && Grows(w, w') && Engaged(w, c, x) && HasFinal(w, c)
    requires ClaimPersists(w, w', e, w.checkouts[c].claim)
    ensures HasFinal(w', c) && (BoundFinal(w, c) ==> BoundFinal(w', c))
  {
    hide VolumeShape, Grows, VolumesInv;
    var k := w.checkouts[c].claim;
    assert CheckoutInv(w, c) && ClaimShape(w, k, w.cluster.claims[k]);
    assert k in w'.cluster.claims ==> ClaimShape(w', k, w'.cluster.claims[k]);
    FinalHasVolume(w, k);
    assert !w.cluster.claims[k].deleting && k != w.checkouts[c].locked;
    hide Core, CheckoutInv, Engaged;
    FinalStays(w, w', e, c);
  }

  lemma FinalStays(w: World, w': World, e: Event, c: Uid)
    requires HasFinal(w, c) && Grows(w, w')
    requires var k := w.checkouts[c].claim;
      && ClaimPersists(w, w', e, k) && !w.cluster.claims[k].deleting
      && ClaimShape(w, k, w.cluster.claims[k]) && (k in w'.cluster.claims ==> ClaimShape(w', k, w'.cluster.claims[k]))
      && (w.cluster.claims[k].phase == Bound ==> !MayLose(w.cluster, k))
    ensures HasFinal(w', c) && (BoundFinal(w, c) ==> BoundFinal(w', c))
  {
  }

  /** While the locked claim that took x stands, its volume stays. */
  lemma FinalVolumeKept(w: World, e: Event, c: Uid, x: Uid)
    requires Core(w) && Engaged(w, c, x) && Derived(x) in w.cluster.volumes
    ensures Derived(x) in Step(w, e).cluster.volumes
  {
    hide StepAdvance, StepAdvanceReplica, StepChoose, HistoryInv, ConfiguredReplica, Persisting, ClaimsInv, Taken,
      Anchored, StepAround, Step;
    if Derived(x) !in Step(w, e).cluster.volumes {
      StepVolume(w, e, Derived(x));
      assert VolumeShape(w, Derived(x), w.cluster.volumes[Derived(x)]);
      ReclaimedUninvolved(w, Derived(x), c);
    }
  }

  /** A locked claim that took something was never away. */
  lemma LockedPersists(w: World, w': World, e: Event, c: Uid, x: Uid)
    requires Core(w) && Core(w') && Extends(w, w') && c in w.checkouts
    requires ClaimPersists(w, w', e, w.checkouts[c].locked)
    requires x in w.taken && w.taken[x].checkout == c
    requires HasLocked(w', c) && LockedClaim(w', c).uid == w.taken[x].locked
    ensures Engaged(w, c, x)
    ensures Leaving(w, x) ==> Leaving(w', x)
  {
    hide VolumesInv, HistoryInv, ClaimsInv, ClaimPersists, FinalInv, Leaving, EngagedInv, BoundFinal, Extends;
    LeavesOn(w, w', x);
    WasLocked(w, w', e, c, x);
    assert CheckoutInv(w, c);
  }

  lemma WasLocked(w: World, w': World, e: Event, c: Uid, x: Uid)
    requires HistoryInv(w) && ClaimsInv(w) && ClaimsInv(w') && Extends(w, w') && c in w.checkouts
    requires ClaimPersists(w, w', e, w.checkouts[c].locked)
    requires x in w.taken && w.taken[x].checkout == c
    requires HasLocked(w', c) && LockedClaim(w', c).uid == w.taken[x].locked
    ensures HasLocked(w, c) && LockedClaim(w, c).uid == w.taken[x].locked
  {
    hide Handed, InitsInv, Leaving, Learns, Readied, HandoffInvariant.Named, MayLose;
    var k := w.checkouts[c].locked;
    assert k in w.cluster.claims;
    assert ClaimShape(w, k, w.cluster.claims[k]);
  }

  lemma LeavesOn(w: World, w': World, x: Uid)
    requires Core(w) && Extends(w, w') && x in w.taken
    ensures Leaving(w, x) ==> Leaving(w', x)
  {
    hide VolumesInv, CheckoutInv, ClaimsInv, Grows, Leaving, Handed;
  }

  /** Nothing lowers the stage: no controller, no crash, no component, no user. */
  lemma StageMonotone(w: World, e: Event, x: Uid)
    requires Reachable(w) && x in w.taken
    ensures x in Step(w, e).taken && Stage(w, x) <= Stage(Step(w, e), x)
  {
    hide Step, ProcInv, ReplicaInv, CheckoutInv, VolumeShape, ClaimPersists, ClaimsInv, VolumesInv;
    ReachableInv(w);
    StepKeepsInv(w, e);
    var w' := Step(w, e);
    var c := w.taken[x].checkout;
    assert w'.taken[x] == w.taken[x] && c in w.checkouts && w'.checkouts == w.checkouts;
    StepClaim(w, e, w.checkouts[c].locked);
    StepClaim(w, e, w.checkouts[c].claim);
    hide Core, Extends, Rely;
    if HasLocked(w', c) && LockedClaim(w', c).uid == w.taken[x].locked {
      StageStep(w, w', e, c, x);
      if Derived(x) in w.cluster.volumes {
        FinalVolumeKept(w, e, c, x);
      }
    }
    StageOrder(w, w', x);
  }

  /** And so over any continuation of the run. */
  lemma {:induction false} StageNeverFalls(w: World, es: seq<Event>, x: Uid)
    requires Reachable(w) && x in w.taken
    ensures var w' := Run(w, es); Reachable(w') && x in w'.taken && Stage(w, x) <= Stage(w', x)
  {
    hide Reachable, Stage, Step;
    if es != [] {
      var n := |es| - 1;
      StageNeverFalls(w, es[..n], x);
      StageMonotone(Run(w, es[..n]), es[n], x);
      ReachableStep(Run(w, es[..n]), es[n]);
    }
  }

  lemma StageOrder(w: World, w': World, x: Uid)
    requires x in w.taken && x in w'.taken && w'.taken[x] == w.taken[x]
    requires var c := w.taken[x].checkout;
      HasLocked(w', c) && LockedClaim(w', c).uid == w.taken[x].locked ==>
        && Engaged(w, c, x)
        && (Leaving(w, x) ==> Leaving(w', x))
        && (HasFinal(w, c) ==> HasFinal(w', c)) && (BoundFinal(w, c) ==> BoundFinal(w', c))
        && (Derived(x) in w.cluster.volumes ==> Derived(x) in w'.cluster.volumes)
    ensures Stage(w, x) <= Stage(w', x)
  {
    hide HasLocked, HasFinal;
  }

  lemma StageStep(w: World, w': World, e: Event, c: Uid, x: Uid)
    requires Core(w) && Core(w') && Extends(w, w') && c in w.checkouts
    requires ClaimPersists(w, w', e, w.checkouts[c].locked) && ClaimPersists(w, w', e, w.checkouts[c].claim)
    requires x in w.taken && w.taken[x].checkout == c
    requires HasLocked(w', c) && LockedClaim(w', c).uid == w.taken[x].locked
    ensures Engaged(w, c, x)
    ensures Leaving(w, x) ==> Leaving(w', x)
    ensures HasFinal(w, c) ==> HasFinal(w', c) && (BoundFinal(w, c) ==> BoundFinal(w', c))
  {
    hide CheckoutInv, VolumeShape, HistoryInv, ClaimPersists, Grows, Core;
    LockedPersists(w, w', e, c, x);
    if HasFinal(w, c) {
      FinalPersists(w, w', e, c, x);
    }
  }

  /** Once the volume is taken the pool is not consulted again for this handoff,
      and whatever a later reconcile is about to write is about that volume. */
  lemma TakenReadopted(w: World, c: Uid, x: Uid)
    requires Reachable(w) && Engaged(w, c, x) && c in w.procs
    ensures var p := w.procs[c];
      && !p.pc.ReadPool? && !p.pc.Scanning? && !p.pc.Choosing?
      && (p.pc.WriteLocked? || p.pc.WriteLockedVolume? || p.pc.WriteFinal? || p.pc.WriteFinalVolume? ==>
            p.seen.lockedVolume.Some? && p.seen.lockedVolume.value.name == Provisioned(x))
      && (p.pc.WriteLocked? ==> p.source.None?)
  {
    hide Core, ScanInv, Configured, Snapshot, FinalKnown, Run, ReplicaInv;
    ReachableInv(w);
    var p := w.procs[c];
    assert ProcInv(w, c, p);
    hide Reachable, Inv;
  }
}
