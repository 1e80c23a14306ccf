/** Every API call of a checkout's own reconcile keeps the invariant and leaves
    the reconcile knowing what its next call needs. */
module HandoffOwn {
  import opened Kube
  import opened Replica
  import opened Checkouts
  import opened World
  import opened HandoffInvariant
  import opened HandoffSteps

  // ------------------------------------------------------------------ reading

  /** A volume just read is a snapshot. */
  lemma ReadSnapshot(w: World, n: VolumeName)
    requires VolumesInv(w) && n in w.cluster.volumes
    ensures Snapshot(w, n, w.cluster.volumes[n])
  {
    hide Anchored, VolumeShape;
  }

  lemma ReadLockedOk(w: World, c: Uid, p: Proc)
    requires Core(w) && ProcInv(w, c, p) && p.pc == ReadLocked
    ensures ProcInv(w, c, Resume(p, GotClaim(Find(w.cluster.claims, p.checkout.lockedKey))))
  {
    hide Resume, Looking, HistoryInv, Configured, VolumeShape, VolumeSeen, VolumesInv, AtReadFinalVolume,
      AtWriteFinalVolume, AtWriteLockedVolume, AtWriteFinal, AtWriteLocked, Adopted, FinalInv, HasFinal,
      AtRemoveLockedVolume, AtRemoveLocked, Readied;
    ResumedLocked(p, NEW_CLAIM);
    if p.checkout.lockedKey in w.cluster.claims {
      var l := w.cluster.claims[p.checkout.lockedKey];
      assert ClaimShape(w, p.checkout.lockedKey, l);
      assert CheckoutInv(w, c);
      ResumedLocked(p, l);
    }
    hide ClaimsInv, EngagedInv;
  }

  lemma ReadLockedVolumeOk(w: World, c: Uid, p: Proc)
    requires Core(w) && ProcInv(w, c, p) && p.pc == ReadLockedVolume
    ensures ProcInv(w, c, Resume(p, Serve(w.cluster, GetVolume(p.mem.locked.spec.volumeName), []).1))
  {
    hide Looking, Configured, VolumeShape, ServePutClaim, VolumeSeen;
    var h, n := p.mem, p.mem.locked.spec.volumeName;
    hide Resume, HistoryInv, ClaimsInv, VolumesInv, CheckoutInv, LockedRead, LockedVolumeRead, CrossReferenced;
    ResumedLockedVolume(p, if n.Some? then Find(w.cluster.volumes, n.value) else None);
    CrossReferenceSound(w, c, h);
    LockedReadOnly(w, c, h, h.(lockedVolume := CrossReferenced(h.locked, if n.Some? then Find(w.cluster.volumes, n.value) else None)));
  }

  /** Knowing the locked claim is about the locked claim only. */
  lemma LockedReadOnly(w: World, c: Uid, h: Held, h': Held)
    requires LockedRead(w, c, h) && h'.locked == h.locked
    ensures LockedRead(w, c, h')
  {
  }

  /** Cross-referencing adopts exactly a volume that was taken under this claim. */
  lemma CrossReferenceSound(w: World, c: Uid, h: Held)
    requires Core(w) && c in w.checkouts && LockedRead(w, c, h) && h.locked.uid != 0
    ensures var n := h.locked.spec.volumeName;
      var v := CrossReferenced(h.locked, if n.Some? then Find(w.cluster.volumes, n.value) else None);
      LockedVolumeRead(w, c, h.(lockedVolume := v))
  {
    hide ClaimsInv, CheckoutInv, VolumeShape;
    var n := h.locked.spec.volumeName;
    var v := CrossReferenced(h.locked, if n.Some? then Find(w.cluster.volumes, n.value) else None);
    if v.Some? {
      ReadSnapshot(w, v.value.name);
    }
    forall x: Uid {:trigger Engaged(w, c, x)} | v.None? && Engaged(w, c, x)
      ensures Provisioned(x) !in w.cluster.volumes
    {
    }
  }

  lemma ReadFinalOk(w: World, c: Uid, p: Proc)
    requires Core(w) && ProcInv(w, c, p) && p.pc == ReadFinal
    ensures ProcInv(w, c, Resume(p, GotClaim(Find(w.cluster.claims, p.checkout.claimKey))))
  {
    hide Resume, Configured, ReplicaFacts, Snapshot, Looking, VolumeSeen;
    var k := p.checkout.claimKey;
    hide HistoryInv, ClaimsInv, VolumesInv, CheckoutInv, LockedRead, LockedVolumeRead;
    if k in w.cluster.claims {
      var f := w.cluster.claims[k];
      var q := Resume(p, GotClaim(Some(f)));
      ResumedFinal(p, f);
      if f.controller == Some(CheckoutOwner(c)) {
        FinalReadOk(w, c, p.mem, f);
        hide FinalUnbound, FinalBound;
        assert q == p.(pc := ReadFinalVolume, mem := p.mem.(claim := f));
      } else {
        Abandoning(w, c, p, q);
      }
    } else {
      ResumedFinal(p, NEW_CLAIM);
      hide AfterRead;
      FinalAbsentOk(w, c, p.mem);
      AfterReadOk(w, c, p);
    }
  }

  lemma FinalAbsentOk(w: World, c: Uid, h: Held)
    requires Core(w) && c in w.checkouts && LockedRead(w, c, h) && LockedVolumeRead(w, c, h)
    requires !HasFinal(w, c) && h.claim == NEW_CLAIM && h.volume.None?
    ensures FinalUnbound(w, c, h)
  {
    hide HistoryInv, ClaimsInv, VolumeShape, VolumesInv;
    assert CheckoutInv(w, c);
  }

  lemma FinalReadOk(w: World, c: Uid, h: Held, f: Claim)
    requires Core(w) && c in w.checkouts && LockedRead(w, c, h) && LockedVolumeRead(w, c, h)
    requires HasFinal(w, c) && f == FinalClaim(w, c) && h.volume.None?
    ensures FinalUnbound(w, c, h.(claim := f)) || FinalBound(w, c, h.(claim := f))
    ensures LockedRead(w, c, h.(claim := f)) && LockedVolumeRead(w, c, h.(claim := f)) && f.uid != 0
  {
    hide VolumesInv, Snapshot, Handed, InitsInv, HasLocked, Readied;
    assert CheckoutInv(w, c);
    assert ClaimShape(w, w.checkouts[c].claim, f);
  }

  lemma AfterReadOk(w: World, c: Uid, p: Proc)
    requires c in w.checkouts && p.checkout.uid == c
    requires p.checkout.lockedKey == w.checkouts[c].locked && p.checkout.claimKey == w.checkouts[c].claim
    requires p.source.None? && LockedRead(w, c, p.mem) && LockedVolumeRead(w, c, p.mem)
    requires FinalUnbound(w, c, p.mem) || FinalBound(w, c, p.mem)
    ensures ProcInv(w, c, AfterRead(p))
  {
    hide ScanInv, Snapshot;
    if p.mem.claim.phase == Bound {
      assert Configured(p.checkout, p.mem) == p.mem;
      hide Configured;
      RemovingOk(w, c, p);
    } else if p.mem.lockedVolume.Some? {
      hide LockedRead, Adopted;
      assert AtWriteLocked(w, c, AfterRead(p));
      hide AtWriteLocked;
    } else {
      hide BeginPersist, LockedRead;
    }
  }

  lemma RemovingOk(w: World, c: Uid, p: Proc)
    requires c in w.checkouts && p.checkout.uid == c
    requires p.checkout.lockedKey == w.checkouts[c].locked && p.checkout.claimKey == w.checkouts[c].claim
    requires LockedRead(w, c, p.mem) && LockedVolumeRead(w, c, p.mem) && FinalBound(w, c, p.mem)
    requires Configured(p.checkout, p.mem) == p.mem
    ensures ProcInv(w, c, BeginPersist(p))
  {
    hide Configured, LockedRead, Adopted, Looking, VolumeSeen;
  }

  lemma ReadFinalVolumeOk(w: World, c: Uid, p: Proc, r: Option<Volume>)
    requires ProcInv(w, c, p) && p.pc == ReadFinalVolume
    ensures ProcInv(w, c, Resume(p, GotVolume(r)))
  {
    hide Resume, AfterRead, CrossReferenced, Core, Looking, Snapshot, VolumeSeen, Configured;
    ResumedFinalVolume(p, r);
    AfterReadOk(w, c, p.(mem := p.mem.(volume := CrossReferenced(p.mem.claim, r))));
  }

  // --------------------------------------------------------------- the pool

  lemma LoadJobOk(w: World, p: ReplicaProc)
    requires ClaimsInv(w) && LoadInv(w, p) && p.pc == LoadJob
    ensures LoadInv(w, ResumeReplica(p, GotJob(Find(w.cluster.jobs, p.mem.key))))
  {
    hide Readied, Snapshot;
  }

  lemma LoadClaimOk(w: World, p: ReplicaProc)
    requires ClaimsInv(w) && LoadInv(w, p) && p.pc == LoadClaim
    ensures Loaded(w, ResumeReplica(p, GotClaim(Find(w.cluster.claims, p.mem.key))))
  {
    hide Readied, Snapshot, Named, Ran;
    if p.mem.key in w.cluster.claims {
      assert ClaimShape(w, p.mem.key, w.cluster.claims[p.mem.key]);
    }
  }

  lemma LoadVolumeOk(w: World, p: ReplicaProc)
    requires VolumesInv(w) && LoadInv(w, p) && p.pc == LoadVolume
    ensures var n := p.mem.claim.spec.volumeName;
      Loaded(w, ResumeReplica(p, GotVolume(if n.Some? then Find(w.cluster.volumes, n.value) else None)))
  {
    var n := p.mem.claim.spec.volumeName;
    if n.Some? && n.value in w.cluster.volumes {
      ReadSnapshot(w, n.value);
    }
    hide Readied, Snapshot, Named, Ran;
  }

  /** The replica is still loading, or has been loaded as far as it is there. */
  ghost predicate Loaded(w: World, q: ReplicaProc) {
    && ReplicaFacts(w, q.mem)
    && (Marked(q.mem.claim.annotations) && !CheckoutOwned(q.mem.claim) ==> MarkedSoundly(w, q.mem))
    && (LoadInv(w, q) || q.pc == Ready || q.pc == Gone || q.pc == Broken)
  }

  lemma LoadStepOk(w: World, p: ReplicaProc, listing: seq<Key>)
    requires Core(w) && LoadInv(w, p)
    ensures NextReplicaCall(p).Some?
    ensures Loaded(w, ResumeReplica(p, Serve(w.cluster, NextReplicaCall(p).value, listing).1))
  {
    hide HistoryInv, ClaimsInv, VolumesInv, CheckoutInv, ResumeReplica, ReplicaFacts, ServePutClaim;
    match p.pc
    case LoadJob =>
      LoadJobOk(w, p);
    case LoadClaim => LoadClaimOk(w, p);
    case LoadVolume => LoadVolumeOk(w, p);
  }

  lemma NextKeyOk(w: World, s: Scan)
    requires forall i | 0 <= i < |s.available| :: Takeable(w, s.pool.uid, s.available[i])
    ensures ScanInv(w, NextKey(s))
  {
    hide Takeable, Snapshot;
  }

  /** A replica in the available list may be taken. */
  lemma SortedOk(w: World, s: Scan, r: Replica)
    requires Core(w) && ReplicaFacts(w, r)
    requires Marked(r.claim.annotations) && !CheckoutOwned(r.claim) ==> MarkedSoundly(w, r)
    requires forall i | 0 <= i < |s.available| :: Takeable(w, s.pool.uid, s.available[i])
    ensures Sorted(s, r).pool == s.pool
    ensures forall i | 0 <= i < |Sorted(s, r).available| :: Takeable(w, s.pool.uid, Sorted(s, r).available[i])
  {
    hide CheckoutInv, ClaimsInv, VolumesInv;
    if Sorted(s, r).available != s.available {
      assert r.claim.uid !in w.owned;
      assert Takeable(w, s.pool.uid, r);
    }
  }

  lemma ScanStepOk(w: World, s: Scan, listing: seq<Key>)
    requires Core(w) && ScanInv(w, s) && NextScanCall(s).Some?
    ensures ScanInv(w, ResumeScan(s, Serve(w.cluster, NextScanCall(s).value, listing).1))
  {
    hide Core, Takeable, LoadInv, NextKey, Sorted, ResumeReplica, NextReplicaCall, IsListing, Serve, Continue;
    var r := Serve(w.cluster, NextScanCall(s).value, listing).1;
    match s.pc
    case Listing =>
      if r.GotKeys? {
        NextKeyOk(w, s.(todo := r.keys));
      }
    case Reading => ReadingOk(w, s, listing);
    case _ =>
  }

  lemma ReadingOk(w: World, s: Scan, listing: seq<Key>)
    requires Core(w) && ScanInv(w, s) && s.pc == Reading && NextReplicaCall(s.cur).Some?
    ensures ScanInv(w, ResumeScan(s, Serve(w.cluster, NextReplicaCall(s.cur).value, listing).1))
  {
    hide Core, Takeable, NextKey, Sorted, ResumeReplica, NextReplicaCall, Serve, CheckoutInv, HistoryInv,
      ReplicaFacts;
    LoadStepOk(w, s.cur, listing);
    var q := ResumeReplica(s.cur, Serve(w.cluster, NextReplicaCall(s.cur).value, listing).1);
    if q.pc == Ready {
      SortedOk(w, s, q.mem);
      NextKeyOk(w, Sorted(s, q.mem));
    } else if q.pc == Gone {
      NextKeyOk(w, s);
    }
  }

  lemma ScanningOk(w: World, c: Uid, p: Proc, listing: seq<Key>)
    requires Core(w) && ProcInv(w, c, p) && p.pc == Scanning && NextScanCall(p.scan).Some?
    ensures ProcInv(w, c, Resume(p, Serve(w.cluster, NextScanCall(p.scan).value, listing).1))
  {
    hide Resume, ResumeScan, Core, LockedRead, FinalUnbound, Takeable, LoadInv, Serve, Snapshot, VolumeSeen,
      Configured;
    ResumedScan(p, Serve(w.cluster, NextScanCall(p.scan).value, listing).1);
    hide NextScanCall;
    ScanStepOk(w, p.scan, listing);
  }

  lemma ReadPoolOk(w: World, c: Uid, p: Proc, r: Option<Pool>)
    requires ProcInv(w, c, p) && p.pc == ReadPool
    ensures ProcInv(w, c, Resume(p, GotPool(r)))
  {
    hide Resume, Snapshot, LoadInv, Configured, AtWriteFinalVolume, AtWriteLockedVolume, AtWriteFinal,
      AtWriteLocked, Takeable, FinalUnbound, FinalBound, LockedRead, Engaged, Adopted, AtRemoveLocked;
    ResumedPool(p, if r.Some? then r.value else NO_POOL);
  }

  lemma ChosenOk(w: World, c: Uid, p: Proc, i: nat)
    requires Core(w) && ProcInv(w, c, p) && p.pc == Choosing && Oldest(p.scan.available, i)
    ensures ProcInv(w, c, Chosen(p, i))
  {
    hide CheckoutInv, HistoryInv, ClaimsInv, ReplicaFacts, VolumeShape, Core;
    var q := Chosen(p, i);
    assert Takeable(w, p.scan.pool.uid, p.scan.available[i]);
    assert VolumeSeen(w, q);
    assert AtWriteLocked(w, c, q);
  }

  /** A refused call ends the reconcile. */
  lemma RefusedOk(w: World, c: Uid, p: Proc, e: ApiError)
    requires ProcInv(w, c, p) && NextCall(p).Some?
    ensures ProcInv(w, c, Resume(p, Refused(e)))
  {
    hide Resume, NextCall, Configured, ReplicaFacts, ProcInv;
    RefusedEnds(p, e);
    Abandoning(w, c, p, Resume(p, Refused(e)));
  }

  lemma RefusedEnds(p: Proc, e: ApiError)
    requires NextCall(p).Some?
    ensures Resume(p, Refused(e)).pc == Abandoned && Resume(p, Refused(e)).checkout == p.checkout
  {
    hide AfterRead;
  }

  /** Giving up takes no knowledge. */
  lemma Abandoning(w: World, c: Uid, p: Proc, q: Proc)
    requires ProcInv(w, c, p) && q.pc == Abandoned && q.checkout == p.checkout
    ensures ProcInv(w, c, q)
  {
    hide Configured, ReplicaFacts, Snapshot, Looking, VolumeSeen;
  }

  // ------------------------------------------------------------ writing claims

  /** What storing a claim does to the cluster. */
  lemma PutClaimEffect(s: Cluster, k: Key, o: Claim)
    ensures var (s', r) := ServePutClaim(s, k, o);
      && (r.StoredClaim? || (r.Refused? && s' == s))
      && (r.StoredClaim? ==>
            && k in s'.claims && s'.claims[k] == r.claim
            && (forall k' | k' != k :: k' in s'.claims <==> k' in s.claims)
            && (forall k' | k' != k && k' in s.claims :: s'.claims[k'] == s.claims[k'])
            && s'.volumes == s.volumes && s'.jobs == s.jobs && s'.pools == s.pools
            && s.next <= s'.next
            && r.claim.controller == o.controller && r.claim.spec == o.spec
            && (o.uid == 0 ==>
                  && k !in s.claims && r.claim.uid == s.next < s'.next
                  && r.claim.phase == Pending && !r.claim.deleting)
            && (o.uid != 0 ==>
                  && k in s.claims && s.claims[k].uid == o.uid == r.claim.uid
                  && ClaimUpdateValid(s.claims[k], o)
                  && r.claim.phase == s.claims[k].phase && r.claim.deleting == s.claims[k].deleting))
  {
  }

  /** The same, for a claim the checkout writes. */
  ghost predicate ClaimStored(w: World, w': World, c: Uid, k: Key, cl: Claim) {
    && w'.checkouts == w.checkouts && w'.origin == w.origin && w'.taken == w.taken
    && w'.inits == w.inits && w'.destroyed == w.destroyed
    && w'.owned == w.owned[cl.uid := c]
    && k in w'.cluster.claims && w'.cluster.claims[k] == cl
    && OnlyAt(w, w', k)
    && w'.cluster.volumes == w.cluster.volumes && w'.cluster.jobs == w.cluster.jobs
    && w.cluster.next <= w'.cluster.next
    && cl.controller == Some(CheckoutOwner(c))
    && c in w.checkouts && (k == w.checkouts[c].locked || k == w.checkouts[c].claim)
    && (if k in w.cluster.claims then
          && cl.uid == w.cluster.claims[k].uid && cl.uid in w.owned && w.owned[cl.uid] == c
          && (w.cluster.claims[k].spec.volumeName.Some? ==> cl.spec.volumeName == w.cluster.claims[k].spec.volumeName)
          && cl.spec.accessModes == w.cluster.claims[k].spec.accessModes
          && cl.spec.storageClass == w.cluster.claims[k].spec.storageClass
          && cl.phase == w.cluster.claims[k].phase && cl.deleting == w.cluster.claims[k].deleting
        else
          cl.uid == w.cluster.next < w'.cluster.next && !cl.deleting && cl.phase == Pending)
  }

  lemma StoredShape(w: World, w': World, c: Uid, k: Key, cl: Claim)
    requires HistoryInv(w) && ClaimsInv(w) && ClaimStored(w, w', c, k, cl)
    ensures ClaimsOnly(w, w') && ClaimShape(w', k, cl)
    ensures k in w.cluster.claims ==> w.cluster.claims[k].controller == Some(CheckoutOwner(c))
  {
    hide Handed, HandoffSteps.OnlyAt, HandoffInvariant.Named, Grows;
    if k in w.cluster.claims {
      assert ClaimShape(w, k, w.cluster.claims[k]);
    }
    StoredGrows(w, w', c, cl);
  }

  lemma StoredGrows(w: World, w': World, c: Uid, cl: Claim)
    requires w'.checkouts == w.checkouts && w'.origin == w.origin && w'.taken == w.taken && w'.inits == w.inits
    requires w'.owned == w.owned[cl.uid := c] && w.cluster.next <= w'.cluster.next
    requires if cl.uid in w.owned then w.owned[cl.uid] == c else cl.uid == w.cluster.next
    ensures Grows(w, w')
  {
  }

  /** Writing back a claim of ours that exists. */
  lemma ClaimUpdated(w: World, w': World, c: Uid, k: Key, cl: Claim)
    requires Core(w) && ClaimStored(w, w', c, k, cl) && k in w.cluster.claims
    requires cl.spec.request == w.cluster.claims[k].spec.request
    ensures Harmless(w, w', Some(c)) && Rely(w, w', c)
    ensures cl.spec.volumeName == w.cluster.claims[k].spec.volumeName
  {
    hide HistoryInv, ClaimsInv, VolumesInv, Harmless, Extends, ClaimsOnly, VolumeShape, Grows, Rely;
    StoredShape(w, w', c, k, cl);
    assert CheckoutInv(w, c);
    assert Touched(w, w', c, k);
    TouchOwned(w, w', c, k);
    TouchedRely(w, w', c);
  }

  lemma TouchedRely(w: World, w': World, c: Uid)
    requires Harmless(w, w', None) && c in w.checkouts
    ensures Harmless(w, w', Some(c)) && Rely(w, w', c)
  {
    hide Core, Extends, Rely;
  }

  /** Creating the locked claim: there was neither a locked nor a final one. */
  lemma LockedCreated(w: World, w': World, c: Uid, cl: Claim)
    requires Core(w) && c in w.checkouts && ClaimStored(w, w', c, w.checkouts[c].locked, cl)
    requires w.checkouts[c].locked !in w.cluster.claims && !HasFinal(w, c)
    requires cl.spec.volumeName.Some? && cl.spec.volumeName.value.Provisioned?
    requires cl.spec.volumeName.value.id in w.origin
    requires cl.spec.storageClass == Some(w.origin[cl.spec.volumeName.value.id].storageClass)
    requires cl.spec.request == w.origin[cl.spec.volumeName.value.id].capacity
    requires cl.spec.accessModes == w.origin[cl.spec.volumeName.value.id].accessModes
    ensures Harmless(w, w', Some(c))
    ensures HasLocked(w', c) && LockedClaim(w', c) == cl && !HasFinal(w', c)
  {
    hide VolumeShape, Grows, Rely, Harmless, VolumesInv, ClaimShape, ClaimsInv, FinalInv, Handed, InitsInv,
      ClaimsOnly;
    var k := w.checkouts[c].locked;
    StoredShape(w, w', c, k, cl);
    assert CheckoutInv(w', c);
    hide CheckoutInv;
    OneCheckout(w, w', c, k, Some(c));
  }

  /** Creating the final claim: the locked claim stands and has its volume. */
  lemma FinalCreated(w: World, w': World, c: Uid, cl: Claim, x: Uid)
    requires Core(w) && c in w.checkouts && ClaimStored(w, w', c, w.checkouts[c].claim, cl)
    requires w.checkouts[c].claim !in w.cluster.claims
    requires Engaged(w, c, x) && !LockedClaim(w, c).deleting && cl.spec.volumeName == Some(Derived(x))
    requires x in w.origin && cl.spec.storageClass == Some(w.origin[x].storageClass)
    requires cl.spec.request == w.origin[x].capacity
    ensures Harmless(w, w', Some(c))
    ensures HasFinal(w', c) && FinalClaim(w', c) == cl
    ensures HasLocked(w', c) && LockedClaim(w', c) == LockedClaim(w, c) && Engaged(w', c, x)
  {
    hide VolumeShape, Grows, CheckoutInv, Rely;
    var k := w.checkouts[c].claim;
    assert CheckoutInv(w, c);
    StoredShape(w, w', c, k, cl);
    FinalCreatedInv(w, w', c, cl, x);
    OneCheckout(w, w', c, k, Some(c));
  }

  lemma FinalCreatedInv(w: World, w': World, c: Uid, cl: Claim, x: Uid)
    requires CheckoutInv(w, c) && c in w.checkouts && w.checkouts[c].locked != w.checkouts[c].claim
    requires ClaimStored(w, w', c, w.checkouts[c].claim, cl)
    requires w.checkouts[c].claim !in w.cluster.claims
    requires Engaged(w, c, x) && !LockedClaim(w, c).deleting && cl.spec.volumeName == Some(Derived(x))
    requires x in w.origin && cl.spec.storageClass == Some(w.origin[x].storageClass)
    requires cl.spec.request == w.origin[x].capacity
    ensures CheckoutInv(w', c) && Engaged(w', c, x)
    ensures HasLocked(w', c) && LockedClaim(w', c) == LockedClaim(w, c)
    ensures HasFinal(w', c) && FinalClaim(w', c) == cl
  {
    assert HasLocked(w', c) && LockedClaim(w', c) == LockedClaim(w, c);
  }

  // ------------------------------------------------- the checkout's own writes

  /** From the server's answer to what is stored. */
  lemma StoredFrom(w: World, w': World, c: Uid, k: Key, o: Claim, cl: Claim)
    requires Core(w) && c in w.checkouts && (k == w.checkouts[c].locked || k == w.checkouts[c].claim)
    requires o.controller == Some(CheckoutOwner(c)) && (o.uid != 0 ==> o.uid in w.owned && w.owned[o.uid] == c)
    requires ServePutClaim(w.cluster, k, o) == (w'.cluster, StoredClaim(cl))
    requires w'.checkouts == w.checkouts && w'.origin == w.origin && w'.taken == w.taken
    requires w'.inits == w.inits && w'.destroyed == w.destroyed && w'.owned == w.owned[cl.uid := c]
    ensures ClaimStored(w, w', c, k, cl)
    ensures cl.spec == o.spec && (o.uid != 0 ==> cl.uid == o.uid)
    ensures o.uid == 0 <==> k !in w.cluster.claims
    ensures o.uid != 0 ==> w.cluster.claims[k].controller == Some(CheckoutOwner(c)) && w.cluster.claims[k].uid == o.uid
  {
    hide VolumesInv, CheckoutInv, HistoryInv;
    PutClaimEffect(w.cluster, k, o);
    hide ServePutClaim;
    if k in w.cluster.claims {
      assert ClaimShape(w, k, w.cluster.claims[k]);
    }
  }

  /** A checkout's claim was stored under key k as `cl`. */
  ghost predicate PutByOwner(w: World, w': World, c: Uid, k: Key, o: Claim, cl: Claim) {
    && ServePutClaim(w.cluster, k, o) == (w'.cluster, StoredClaim(cl))
    && w'.checkouts == w.checkouts && w'.origin == w.origin && w'.taken == w.taken
    && w'.inits == w.inits && w'.destroyed == w.destroyed && w'.owned == w.owned[cl.uid := c]
  }

  /** The locked claim about to be written is the one that was read, and asks for the
      volume it names; so does the one that stands. */
  lemma LockedNamed(w: World, c: Uid, p: Proc)
    requires Core(w) && c in w.checkouts && AtWriteLocked(w, c, p)
    ensures p.mem.locked.controller == Some(CheckoutOwner(p.checkout.uid)) && p.mem.locked.uid == p.seen.locked.uid
    ensures var l := p.mem.locked.spec;
      && l.volumeName.Some? && l.volumeName.value.Provisioned? && l.volumeName.value.id in w.origin
      && var o := w.origin[l.volumeName.value.id];
      && l.storageClass == Some(o.storageClass) && l.accessModes == o.accessModes && l.request == o.capacity
      && (HasLocked(w, c) && LockedClaim(w, c).spec.volumeName == l.volumeName ==> LockedClaim(w, c).spec.request == o.capacity)
  {
    hide ClaimsInv, VolumesInv, HistoryInv, LockedRead, Handed, Adopted, Untaken, Taken;
    assert CheckoutInv(w, c);
  }

  lemma StoreLocked(w: World, w': World, c: Uid, p: Proc, cl: Claim)
    requires Core(w) && ProcInv(w, c, p) && p.pc == WriteLocked
    requires PutByOwner(w, w', c, p.checkout.lockedKey, p.mem.locked, cl)
    ensures Harmless(w, w', Some(c))
    ensures HasLocked(w', c) && LockedClaim(w', c) == cl && !cl.deleting && FinalKnown(w', c, p.seen.claim.uid)
    ensures cl.spec == p.mem.locked.spec && (p.mem.locked.uid != 0 ==> cl.uid == p.mem.locked.uid)
  {
    hide Core, Harmless, Looking, ServePutClaim, Configured, VolumeSeen;
    var k, o := p.checkout.lockedKey, p.mem.locked;
    assert AtWriteLocked(w, c, p);
    LockedNamed(w, c, p);
    StoredFrom(w, w', c, k, o, cl);
    if o.uid == 0 {
      LockedCreated(w, w', c, cl);
    } else {
      ClaimUpdated(w, w', c, k, cl);
    }
  }

  lemma AfterLocked(w: World, c: Uid, p: Proc, cl: Claim)
    requires p.pc == WriteLocked && VolumeSeen(w, p) && p.checkout.uid == c
    requires var m := Configured(p.checkout, p.seen); p.mem == m.(locked := OwnedBy(p.checkout, m.locked))
    requires HasLocked(w, c) && LockedClaim(w, c) == cl && !cl.deleting && FinalKnown(w, c, p.seen.claim.uid)
    requires cl.spec == p.mem.locked.spec && (p.mem.locked.uid != 0 ==> cl.uid == p.mem.locked.uid)
    ensures AtWriteLockedVolume(w, c, Resume(p, StoredClaim(cl)))
    ensures var q := Resume(p, StoredClaim(cl)); q.pc == WriteLockedVolume && q.checkout == p.checkout
  {
    hide ResumeScan, Snapshot;
    VolumeSeenSame(w, p, Resume(p, StoredClaim(cl)));
    hide VolumeSeen, HasLocked, HasFinal;
  }

  /** Knowing what the next write needs is all there is to the invariant. */
  lemma WritingInv(w: World, c: Uid, q: Proc)
    requires c in w.checkouts && q.checkout.uid == c
    requires q.checkout.lockedKey == w.checkouts[c].locked && q.checkout.claimKey == w.checkouts[c].claim
    requires (q.pc == WriteLockedVolume && AtWriteLockedVolume(w, c, q))
          || (q.pc == WriteFinal && AtWriteFinal(w, c, q))
          || (q.pc == WriteFinalVolume && AtWriteFinalVolume(w, c, q))
    ensures ProcInv(w, c, q)
  {
    hide Configured, ReplicaFacts, Snapshot, Looking, VolumeSeen;
  }

  lemma EndedInv(w: World, w': World, c: Uid, p: Proc, q: Proc)
    requires ProcInv(w, c, p) && w'.checkouts == w.checkouts && q.checkout == p.checkout
    requires q.pc == Finished || q.pc == Abandoned
    ensures ProcInv(w', c, q)
  {
    hide Configured, ReplicaFacts, Snapshot, Looking, VolumeSeen;
  }

  lemma VolumeSeenSame(w: World, p: Proc, q: Proc)
    requires VolumeSeen(w, p) && q.seen == p.seen && q.source == p.source && q.scan == p.scan
    ensures VolumeSeen(w, q)
    ensures p.seen.lockedVolume.Some? && p.seen.claim.phase != Bound
    ensures p.source.None? ==> p.seen.locked.uid != 0
  {
    hide Final, Snapshot;
  }

  /** After storing the locked claim. */
  lemma WriteLockedOk(w: World, w': World, c: Uid, p: Proc, cl: Claim)
    requires Core(w) && ProcInv(w, c, p) && p.pc == WriteLocked
    requires PutByOwner(w, w', c, p.checkout.lockedKey, p.mem.locked, cl)
    ensures Harmless(w, w', Some(c)) && ProcInv(w', c, Resume(p, StoredClaim(cl)))
  {
    hide Resume, Core, Looking, Configured, Rely, Grows, Snapshot, VolumeSeen;
    StoreLocked(w, w', c, p, cl);
    assert AtWriteLocked(w, c, p);
    VolumeSeenStable(w, w', p);
    hide PutByOwner, HasLocked, HasFinal, AtWriteLockedVolume, LockedRead;
    AfterLocked(w', c, p, cl);
    WritingInv(w', c, Resume(p, StoredClaim(cl)));
  }

  lemma StoreFinal(w: World, w': World, c: Uid, p: Proc, cl: Claim, x: Uid)
    requires Core(w) && ProcInv(w, c, p) && p.pc == WriteFinal
    requires PutByOwner(w, w', c, p.checkout.claimKey, p.mem.claim, cl)
    requires x == p.seen.lockedVolume.value.name.id
    ensures Harmless(w, w', Some(c))
    ensures HasFinal(w', c) && FinalClaim(w', c) == cl && cl.spec == p.mem.claim.spec
    ensures HasLocked(w', c) && LockedClaim(w', c) == LockedClaim(w, c) && Engaged(w', c, x)
    ensures p.mem.volume.Some? && p.mem.volume.value.name == Derived(x)
  {
    hide Looking, CheckoutInv, ClaimsInv;
    var k, o := p.checkout.claimKey, p.mem.claim;
    assert AtWriteFinal(w, c, p);
    FinalOwned(w, c, o.uid);
    StoredFrom(w, w', c, k, o, cl);
    FinalNamed(w, c, p, x);
    hide ServePutClaim;
    if o.uid == 0 {
      FinalCreated(w, w', c, cl, x);
    } else {
      ClaimUpdated(w, w', c, k, cl);
    }
  }

  lemma AfterFinal(w: World, c: Uid, p: Proc, cl: Claim, x: Uid)
    requires p.pc == WriteFinal && VolumeSeen(w, p) && p.checkout.uid == c
    requires Standing(w, p, c) && Engaged(w, c, x) && p.seen.lockedVolume.value.name == Provisioned(x)
    requires var m := Configured(p.checkout, p.seen);
      p.mem.claim == OwnedBy(p.checkout, m.claim) && p.mem.volume == m.volume
    requires HasFinal(w, c) && FinalClaim(w, c) == cl && cl.spec == p.mem.claim.spec
    requires p.mem.volume.Some? && p.mem.volume.value.name == Derived(x)
    ensures AtWriteFinalVolume(w, c, Resume(p, StoredClaim(cl)))
    ensures var q := Resume(p, StoredClaim(cl)); q.pc == WriteFinalVolume && q.checkout == p.checkout
  {
    hide ResumeScan;
    VolumeSeenSame(w, p, Resume(p, StoredClaim(cl)));
    hide VolumeSeen, HasLocked, HasFinal, Engaged;
  }

  /** After storing the final claim. */
  lemma WriteFinalOk(w: World, w': World, c: Uid, p: Proc, cl: Claim)
    requires Core(w) && ProcInv(w, c, p) && p.pc == WriteFinal
    requires PutByOwner(w, w', c, p.checkout.claimKey, p.mem.claim, cl)
    ensures Harmless(w, w', Some(c)) && ProcInv(w', c, Resume(p, StoredClaim(cl)))
  {
    hide Resume, Core, Looking, Configured, Rely, Grows, Snapshot;
    assert AtWriteFinal(w, c, p);
    var x := p.seen.lockedVolume.value.name.id;
    StoreFinal(w, w', c, p, cl, x);
    VolumeSeenStable(w, w', p);
    assert Standing(w', p, c);
    hide PutByOwner, HasLocked, HasFinal, Engaged, VolumeSeen, Standing, AtWriteFinalVolume;
    AfterFinal(w', c, p, cl, x);
    WritingInv(w', c, Resume(p, StoredClaim(cl)));
  }

  lemma FinalOwned(w: World, c: Uid, uid: Uid)
    requires Core(w) && c in w.checkouts && FinalKnown(w, c, uid)
    ensures uid != 0 ==> uid in w.owned && w.owned[uid] == c
    ensures HasFinal(w, c) ==> FinalClaim(w, c).uid != 0
  {
    hide VolumesInv, CheckoutInv;
    if HasFinal(w, c) {
      assert ClaimShape(w, w.checkouts[c].claim, FinalClaim(w, c));
    }
  }

  /** The volume about to be written has the name the final claim must have. */
  lemma FinalNamed(w: World, c: Uid, p: Proc, x: Uid)
    requires Core(w) && c in w.checkouts && AtWriteFinal(w, c, p) && p.seen.lockedVolume.value.name.id == x
    ensures HasFinal(w, c) ==> FinalClaim(w, c).spec.volumeName == Some(Derived(x))
    ensures p.mem.volume.Some? && p.mem.claim.spec.volumeName == Some(p.mem.volume.value.name)
    ensures p.mem.claim.uid == 0 ==> p.mem.volume.value.name == Derived(x)
    ensures x in w.origin && p.mem.claim.spec.storageClass == Some(w.origin[x].storageClass)
    ensures p.mem.claim.spec.request == w.origin[x].capacity
    ensures HasFinal(w, c) ==> FinalClaim(w, c).spec.request == w.origin[x].capacity
  {
    hide ClaimsInv;
    assert CheckoutInv(w, c);
  }

  // ----------------------------------------------------------- writing volumes

  lemma PutVolumeEffect(s: Cluster, n: VolumeName, o: Volume)
    ensures var (s', r) := ServePutVolume(s, n, o);
      && (r.StoredVolume? || (r.Refused? && s' == s))
      && (r.StoredVolume? ==>
            && n in s'.volumes && s'.volumes[n] == r.volume
            && s'.volumes == s.volumes[n := r.volume]
            && s'.claims == s.claims && s'.jobs == s.jobs && s'.pools == s.pools
            && r.volume.labels == o.labels && r.volume.annotations == o.annotations && r.volume.spec == o.spec
            && (o.uid == 0 ==>
                  && n !in s.volumes && r.volume.uid == s.next < s'.next && r.volume.rv == s.next
                  && !r.volume.deleting)
            && (o.uid != 0 ==>
                  && n in s.volumes && s.volumes[n].uid == o.uid == r.volume.uid && s.volumes[n].rv == o.rv
                  && r.volume.deleting == s.volumes[n].deleting
                  && (if r.volume == s.volumes[n] then s' == s else r.volume.rv == s.next < s'.next)))
  {
  }

  /** Only the volume n was written. */
  ghost predicate VolumeStored(w: World, w': World, n: VolumeName, v: Volume) {
    && w'.checkouts == w.checkouts && w'.origin == w.origin && w'.owned == w.owned
    && w'.inits == w.inits && w'.destroyed == w.destroyed
    && w'.cluster.claims == w.cluster.claims && w'.cluster.jobs == w.cluster.jobs
    && w'.cluster.volumes == w.cluster.volumes[n := v]
    && w.cluster.next < w'.cluster.next
    && v.rv == w.cluster.next
    && (v.uid == w.cluster.next || (n in w.cluster.volumes && v.uid == w.cluster.volumes[n].uid))
    && (n in w.cluster.volumes ==>
          && v.uid == w.cluster.volumes[n].uid
          && (w.cluster.volumes[n].deleting ==> v.deleting))
    && (n in w.cluster.volumes || n.Derived?)
  }

  /** Writing a volume on behalf of checkout c. */
  lemma OwnVolume(w: World, w': World, c: Uid, n: VolumeName, v: Volume)
    requires Core(w) && VolumeStored(w, w', n, v) && Grows(w, w') && HistoryInv(w')
    requires VolumeShape(w', n, v)
    requires n.Provisioned? && n.id in w'.taken ==> Taken(w', n.id, v) && (v.deleting || Anchored(w', n.id))
    requires n.Provisioned? && n.id !in w'.taken ==> n.id !in w'.destroyed
    requires forall x | x in w'.taken && x !in w.taken :: w'.taken[x].checkout == c && n == Provisioned(x)
    requires forall c' | c' in w.checkouts :: CheckoutInv(w', c')
    ensures Harmless(w, w', Some(c))
  {
    hide VolumeShape, HistoryInv, VolumesInv, CheckoutInv, Extends, ClaimsInv, Learns, Taken, Anchored, Harmless,
      Grows;
    OwnVolumeExtends(w, w', n, v);
    OwnVolumeRest(w, w', n, v);
    VolumeStep(w, w', Some(c));
  }

  lemma OwnVolumeExtends(w: World, w': World, n: VolumeName, v: Volume)
    requires VolumeStored(w, w', n, v) && Grows(w, w')
    ensures Extends(w, w')
  {
    hide Grows;
  }

  lemma OwnVolumeRest(w: World, w': World, n: VolumeName, v: Volume)
    requires VolumesInv(w) && VolumeStored(w, w', n, v) && Grows(w, w')
    requires VolumeShape(w', n, v)
    requires n.Provisioned? && n.id in w'.taken ==> Taken(w', n.id, v) && (v.deleting || Anchored(w', n.id))
    requires n.Provisioned? && n.id !in w'.taken ==> n.id !in w'.destroyed
    requires forall x | x in w'.taken && x !in w.taken :: n == Provisioned(x)
    ensures VolumesInv(w')
  {
    hide Grows;
    forall n' | n' in w.cluster.volumes && n' != n ensures VolumeShape(w', n', w.cluster.volumes[n']) {
      VolumeShapeStable(w, w', n', w.cluster.volumes[n']);
    }
    hide VolumeShape;
    forall x | Provisioned(x) in w'.cluster.volumes && Provisioned(x) != n
      ensures x in w'.taken ==> Taken(w', x, w'.cluster.volumes[Provisioned(x)])
      ensures x !in w'.taken ==> x !in w'.destroyed
      ensures x in w'.taken && !w'.cluster.volumes[Provisioned(x)].deleting ==> Anchored(w', x)
    {
      OwnVolumeOther(w, w', n, v, x);
    }
    hide Taken, Anchored;
  }

  lemma OwnVolumeOther(w: World, w': World, n: VolumeName, v: Volume, x: Uid)
    requires VolumesInv(w) && VolumeStored(w, w', n, v) && Grows(w, w')
    requires Provisioned(x) in w'.cluster.volumes && Provisioned(x) != n && (x in w'.taken ==> x in w.taken)
    ensures x in w'.taken ==> Taken(w', x, w'.cluster.volumes[Provisioned(x)])
    ensures x !in w'.taken ==> x !in w'.destroyed
    ensures x in w'.taken && !w'.cluster.volumes[Provisioned(x)].deleting ==> Anchored(w', x)
  {
    hide VolumeShape;
  }

  /** The other checkouts never mind. */
  lemma VolumeStoredFor(w: World, w': World, c: Uid, n: VolumeName, v: Volume, x: Uid, c': Uid)
    requires CheckoutInv(w, c') && c' in w.checkouts && c' != c
    requires VolumeStored(w, w', n, v) && Grows(w, w')
    requires n == Provisioned(x) || n == Derived(x)
    requires x in w'.taken && w'.taken[x].checkout == c
    requires forall y | y in w'.taken && y !in w.taken :: y == x
    ensures CheckoutInv(w', c')
  {
    hide Grows;
    GrowsTaken(w, w');
  }

  lemma GrowsTaken(w: World, w': World)
    requires Grows(w, w')
    ensures forall y | y in w.taken :: y in w'.taken && w'.taken[y] == w.taken[y]
  {
  }

  // ------------------------------------------------------- taking the volume

  /** A locked volume read under this very claim was taken by it. */
  lemma AdoptedTaken(w: World, c: Uid, u: Uid, v: NamedVolume)
    requires HistoryInv(w) && v.name.Provisioned? && VolumeShape(w, v.name, v.volume)
    requires u in w.owned && w.owned[u] == c
    requires v.volume.spec.claimRef.Some? && v.volume.spec.claimRef.value.uid == u
    ensures Taken(w, v.name.id, v.volume)
    ensures w.taken[v.name.id].checkout == c && w.taken[v.name.id].locked == u
  {
  }

  /** What writing the locked volume does to the world. */
  ghost predicate LockedVolumeStored(w: World, w': World, c: Uid, p: Proc, v: Volume) {
    && p.mem.lockedVolume.Some? && p.seen.lockedVolume.Some?
    && var m := p.mem.lockedVolume.value;
    && ServePutVolume(w.cluster, m.name, m.volume) == (w'.cluster, StoredVolume(v))
    && w'.checkouts == w.checkouts && w'.origin == w.origin && w'.owned == w.owned
    && w'.inits == w.inits && w'.destroyed == w.destroyed
    && w'.taken ==
         (if v.uid in w.taken || p.source.None? then w.taken
          else w.taken[v.uid := Taking(c, p.mem.locked.uid, p.scan.pool.uid, p.source.value)])
  }

  /** What the reconcile is about to write as the locked volume. */
  lemma LockedVolumeWritten(w: World, c: Uid, p: Proc)
    requires AtWriteLockedVolume(w, c, p)
    ensures p.mem.lockedVolume.Some?
    ensures p.mem.lockedVolume.value.name == p.seen.lockedVolume.value.name
    ensures var (o, s) := (p.mem.lockedVolume.value.volume, p.seen.lockedVolume.value.volume);
      && o.uid == s.uid && o.rv == s.rv && o.labels == s.labels
      && o.annotations == Remembering(s)
      && o.spec == s.spec.(claimRef := Some(ClaimRef(p.checkout.lockedKey, p.mem.locked.uid)), reclaimPolicy := RETAIN)
  {
  }

  lemma WriteLockedVolumeOk(w: World, w': World, c: Uid, p: Proc, v: Volume)
    requires Core(w) && ProcInv(w, c, p) && p.pc == WriteLockedVolume
    requires LockedVolumeStored(w, w', c, p, v)
    ensures Harmless(w, w', Some(c)) && ProcInv(w', c, Resume(p, StoredVolume(v)))
  {
    hide Resume, Looking, Extends, CheckoutInv, HistoryInv, Configured, Core, Snapshot;
    assert AtWriteLockedVolume(w, c, p);
    LockedVolumeFacts(w, w', c, p, v);
    hide AtWriteLockedVolume, ProcKnows, Engaged, LockedVolumeStored, ServePutVolume;
    if p.source.None? {
      Unchanged(w, w');
    } else {
      TakeVolume(w, w', c, p, p.seen.lockedVolume.value.name.id, v);
    }
    AfterLockedVolume(w, w', c, p, v);
    hide AtWriteFinal, Harmless, ProcInv;
    WritingInv(w', c, Resume(p, StoredVolume(v)));
  }

  /** Storing a locked volume that was adopted changes nothing; one from the pool
      is as it was read. */
  lemma LockedVolumeFacts(w: World, w': World, c: Uid, p: Proc, v: Volume)
    requires Core(w) && c in w.checkouts && AtWriteLockedVolume(w, c, p) && LockedVolumeStored(w, w', c, p, v)
    requires p.checkout.lockedKey == w.checkouts[c].locked
    ensures p.seen.lockedVolume.Some? && p.seen.lockedVolume.value.name.Provisioned?
    ensures w'.cluster.claims == w.cluster.claims
    ensures p.source.None? ==> SameCore(w, w') && Engaged(w', c, p.seen.lockedVolume.value.name.id)
  {
    hide Configured, VolumesInv, Final, FinalInv, Taken, Handed, InitsInv, Synced, CarriesOrigin, HasFinal, Untaken;
    LockedVolumeWritten(w, c, p);
    var n, o, s := p.mem.lockedVolume.value.name, p.mem.lockedVolume.value.volume, p.seen.lockedVolume.value.volume;
    PutVolumeEffect(w.cluster, n, o);
    hide ServePutVolume, CheckoutInv;
    var l := LockedClaim(w, c);
    assert ClaimShape(w, w.checkouts[c].locked, l);
    if p.source.None? {
      AdoptedTaken(w, c, l.uid, p.seen.lockedVolume.value);
      assert w.cluster.volumes[n] == s;
      assert Remembering(s) == s.annotations;
      assert v == s;
    }
  }

  lemma AfterLockedVolume(w: World, w': World, c: Uid, p: Proc, v: Volume)
    requires p.pc == WriteLockedVolume && AtWriteLockedVolume(w, c, p) && Extends(w, w')
    requires w'.cluster.claims == w.cluster.claims
    requires Engaged(w', c, p.seen.lockedVolume.value.name.id)
    ensures AtWriteFinal(w', c, Resume(p, StoredVolume(v)))
    ensures var q := Resume(p, StoredVolume(v)); q.pc == WriteFinal && q.checkout == p.checkout
  {
    hide ResumeScan, Configured, Snapshot;
    var q := Resume(p, StoredVolume(v));
    VolumeSeenStable(w, w', p);
    hide VolumeSeen, Extends;
  }

  /** The moment of taking: an untaken volume is re-pointed at our locked claim. */
  lemma TakeVolume(w: World, w': World, c: Uid, p: Proc, x: Uid, v: Volume)
    requires Core(w) && ProcInv(w, c, p) && p.pc == WriteLockedVolume && p.source.Some?
    requires LockedVolumeStored(w, w', c, p, v)
    requires p.seen.lockedVolume.value.name == Provisioned(x)
    ensures Harmless(w, w', Some(c)) && Engaged(w', c, x)
  {
    hide Handed, Named, Readied, InitsInv, Learns, CheckoutInv, Configured, ServePutVolume, Looking, Harmless,
      Grows;
    assert AtWriteLockedVolume(w, c, p);
    LockedVolumeWritten(w, c, p);
    var n, o, s := Provisioned(x), p.mem.lockedVolume.value.volume, p.seen.lockedVolume.value.volume;
    PutVolumeEffect(w.cluster, n, o);
    assert ClaimShape(w, w.checkouts[c].locked, LockedClaim(w, c));
    assert w.cluster.volumes[n] == s && Untaken(w, x, s);
    assert x !in w.taken && v.uid == x;
    TakenNow(w, w', c, p, x, v);
    TakenForAll(w, w', c, x, v);
    OwnVolume(w, w', c, n, v);
  }

  lemma TakenForAll(w: World, w': World, c: Uid, x: Uid, v: Volume)
    requires Core(w) && c in w.checkouts && x !in w.taken && Engaged(w', c, x) && !v.deleting
    requires VolumeStored(w, w', Provisioned(x), v) && Grows(w, w') && Provisioned(x) in w.cluster.volumes
    requires w'.destroyed == w.destroyed && !LockedClaim(w', c).deleting
    requires forall y | y in w'.taken && y !in w.taken :: y == x
    ensures forall c' | c' in w.checkouts :: CheckoutInv(w', c')
  {
    hide CheckoutInv, Engaged, HistoryInv, VolumesInv, ClaimsInv, VolumeShape;
    forall c' | c' in w.checkouts ensures CheckoutInv(w', c') {
      assert CheckoutInv(w, c');
      if c' != c {
        TakenBy(w', c, x);
        VolumeStoredFor(w, w', c, Provisioned(x), v, x, c');
      } else {
        EngagedNow(w, w', c, x);
      }
    }
  }

  lemma TakenBy(w: World, c: Uid, x: Uid)
    requires Engaged(w, c, x)
    ensures x in w.taken && w.taken[x].checkout == c
  {
  }

  /** History and shape at the moment of taking. */
  lemma TakenNow(w: World, w': World, c: Uid, p: Proc, x: Uid, v: Volume)
    requires HistoryInv(w) && c in w.checkouts && x !in w.taken
    requires p.seen.lockedVolume.Some? && Snapshot(w, Provisioned(x), p.seen.lockedVolume.value.volume)
    requires p.mem.lockedVolume.Some? && p.mem.locked.uid in w.owned && w.owned[p.mem.locked.uid] == c
    requires p.source.Some? && Handed(w, x, p.scan.pool.uid, p.source.value)
    requires Untaken(w, x, p.seen.lockedVolume.value.volume)
    requires p.checkout.lockedKey == w.checkouts[c].locked
    requires HasLocked(w, c) && LockedClaim(w, c).uid == p.mem.locked.uid
    requires LockedClaim(w, c).spec.volumeName == Some(Provisioned(x))
    requires w'.checkouts == w.checkouts && w'.origin == w.origin && w'.owned == w.owned
    requires w'.inits == w.inits && w'.destroyed == w.destroyed && w'.cluster.claims == w.cluster.claims
    requires w.cluster.next < w'.cluster.next && v.rv == w.cluster.next && v.uid == x && !v.deleting
    requires w'.taken == w.taken[x := Taking(c, p.mem.locked.uid, p.scan.pool.uid, p.source.value)]
    requires var s := p.seen.lockedVolume.value.volume;
      && v.labels == s.labels && v.annotations == Remembering(s)
      && v.spec == s.spec.(claimRef := Some(ClaimRef(p.checkout.lockedKey, p.mem.locked.uid)), reclaimPolicy := RETAIN)
    ensures HistoryInv(w') && Grows(w, w')
    ensures VolumeShape(w', Provisioned(x), v) && Taken(w', x, v) && Anchored(w', x) && Engaged(w', c, x)
  {
    hide Handed, Named, InitsInv, Learns, Grows;
    TakenHistory(w, w', c, p.mem.locked.uid, p.scan.pool.uid, p.source.value, x);
  }

  lemma TakenHistory(w: World, w': World, c: Uid, locked: Uid, pool: Uid, r: Replica, x: Uid)
    requires HistoryInv(w) && c in w.checkouts && x !in w.taken && locked in w.owned && w.owned[locked] == c
    requires Handed(w, x, pool, r) && w.cluster.next < w'.cluster.next
    requires w'.checkouts == w.checkouts && w'.origin == w.origin && w'.owned == w.owned
    requires w'.inits == w.inits && w'.destroyed == w.destroyed
    requires w'.taken == w.taken[x := Taking(c, locked, pool, r)]
    ensures HistoryInv(w') && Grows(w, w')
  {
    hide Named, InitsInv, Readied, Available, Stale, Grows;
    InitsLater(w.inits, w.cluster.next, w'.cluster.next);
    TakingGrows(w, w', x, Taking(c, locked, pool, r));
    HandedStable(w, w', x, pool, r);
    forall y | y in w.taken ensures Handed(w', y, w.taken[y].pool, w.taken[y].replica) {
      HandedStable(w, w', y, w.taken[y].pool, w.taken[y].replica);
    }
  }

  lemma TakingGrows(w: World, w': World, x: Uid, t: Taking)
    requires x !in w.taken && w'.taken == w.taken[x := t] && w.cluster.next <= w'.cluster.next
    requires w'.checkouts == w.checkouts && w'.origin == w.origin && w'.owned == w.owned && w'.inits == w.inits
    ensures Grows(w, w')
  {
  }

  lemma EngagedNow(w: World, w': World, c: Uid, x: Uid)
    requires VolumesInv(w) && CheckoutInv(w, c) && c in w.checkouts
    requires x !in w.taken && Engaged(w', c, x) && !Leaving(w', x)
    requires Provisioned(x) in w.cluster.volumes
    requires w'.origin == w.origin
    requires w'.checkouts == w.checkouts && w'.cluster.claims == w.cluster.claims && w'.destroyed == w.destroyed
    requires !LockedClaim(w', c).deleting
    requires forall y | y != x && y in w'.taken :: y in w.taken && w'.taken[y] == w.taken[y]
    requires forall y :: Derived(y) in w'.cluster.volumes <==> Derived(y) in w.cluster.volumes
    ensures CheckoutInv(w', c)
  {
    hide Taken;
    assert Derived(x) in w.cluster.volumes ==> VolumeShape(w, Derived(x), w.cluster.volumes[Derived(x)]);
    assert !HasFinal(w, c);
  }

  // --------------------------------------------------- the requester's volume

  /** What writing the final volume does to the world. */
  ghost predicate FinalVolumeStored(w: World, w': World, p: Proc, v: Volume) {
    && p.mem.volume.Some?
    && ServePutVolume(w.cluster, p.mem.volume.value.name, p.mem.volume.value.volume) == (w'.cluster, StoredVolume(v))
    && w'.checkouts == w.checkouts && w'.origin == w.origin && w'.owned == w.owned
    && w'.inits == w.inits && w'.destroyed == w.destroyed && w'.taken == w.taken
  }

  /** What the reconcile is about to write as the final volume: the storage and
      the original policy of the volume it took. */
  lemma FinalVolumeWritten(w: World, c: Uid, p: Proc, x: Uid)
    requires AtWriteFinalVolume(w, c, p) && x == p.seen.lockedVolume.value.name.id
    ensures p.mem.volume.Some? && p.mem.volume.value.name == Derived(x)
    ensures var (o, s) := (p.mem.volume.value.volume, p.seen.lockedVolume.value.volume);
      && CarriesOrigin(w, x, o)
      && RECLAIM_KEY in o.annotations && o.annotations[RECLAIM_KEY] == w.origin[x].policy
      && o.spec.reclaimPolicy == w.origin[x].policy
      && o.spec.accessModes == p.checkout.accessModes
      && o.spec.claimRef == Some(ClaimRef(p.checkout.claimKey, p.mem.claim.uid))
      && (o.spec.csi.Some? ==> o.spec.csi.value == ReadOnly(o.spec.accessModes))
  {
    var s := p.seen.lockedVolume.value.volume;
    assert Remembering(s)[RECLAIM_KEY] == w.origin[x].policy;
    hide VolumeSeen, Standing, HasLocked, Engaged;
  }

  lemma WriteFinalVolumeOk(w: World, w': World, c: Uid, p: Proc, v: Volume)
    requires Core(w) && ProcInv(w, c, p) && p.pc == WriteFinalVolume
    requires FinalVolumeStored(w, w', p, v)
    ensures Harmless(w, w', Some(c)) && ProcInv(w', c, Resume(p, StoredVolume(v)))
  {
    hide HistoryInv, ClaimsInv, VolumesInv, CheckoutInv, VolumeSeen, Extends, Rely, ResumeScan, Configured,
      ReplicaFacts, Looking, Adopted;
    assert AtWriteFinalVolume(w, c, p);
    EndedInv(w, w', c, p, Resume(p, StoredVolume(v)));
    var x := p.seen.lockedVolume.value.name.id;
    FinalVolumeWritten(w, c, p, x);
    assert Engaged(w, c, x) && HasFinal(w, c);
    PutVolumeEffect(w.cluster, p.mem.volume.value.name, p.mem.volume.value.volume);
    hide ServePutVolume, AtWriteFinalVolume, ProcInv;
    if w'.cluster == w.cluster {
      Unchanged(w, w');
    } else {
      FinalStored(w, w', c, p, v, x);
    }
  }

  lemma FinalStored(w: World, w': World, c: Uid, p: Proc, v: Volume, x: Uid)
    requires Core(w) && c in w.checkouts && p.mem.volume.Some?
    requires Engaged(w, c, x) && HasFinal(w, c)
    requires FinalClaim(w, c).uid == p.mem.claim.uid && FinalClaim(w, c).spec.accessModes == p.checkout.accessModes
    requires SameHistory(w, w') && w'.inits == w.inits && w'.destroyed == w.destroyed
    requires w'.cluster.claims == w.cluster.claims && w'.cluster.jobs == w.cluster.jobs
    requires w'.cluster.volumes == w.cluster.volumes[Derived(x) := v] && w.cluster.next < w'.cluster.next
    requires v.rv == w.cluster.next
    requires if Derived(x) in w.cluster.volumes
      then v.uid == w.cluster.volumes[Derived(x)].uid && v.deleting == w.cluster.volumes[Derived(x)].deleting
      else v.uid == w.cluster.next && !v.deleting
    requires CarriesOrigin(w, x, v)
    requires RECLAIM_KEY in v.annotations && v.annotations[RECLAIM_KEY] == w.origin[x].policy
    requires v.spec.reclaimPolicy == w.origin[x].policy && v.spec.accessModes == p.checkout.accessModes
    requires p.checkout.claimKey == w.checkouts[c].claim
    requires v.spec.claimRef == Some(ClaimRef(p.checkout.claimKey, p.mem.claim.uid))
    requires v.spec.csi.Some? ==> v.spec.csi.value == ReadOnly(v.spec.accessModes)
    ensures Harmless(w, w', Some(c))
  {
    hide Harmless, Grows, Handed, Learns, Taken, Anchored, InitsInv, Untaken, EngagedInv, Readied;
    assert CheckoutInv(w, c);
    assert ClaimShape(w, w.checkouts[c].claim, FinalClaim(w, c));
    assert Derived(x) in w.cluster.volumes ==> VolumeShape(w, Derived(x), w.cluster.volumes[Derived(x)]);
    HistoryFrame(w, w');
    FinalShape(w, w', c, p, v, x);
    hide VolumeShape, ClaimShape, HistoryInv;
    FinalStoredFor(w, w', c, v, x);
    forall c' | c' in w.checkouts && c' != c ensures CheckoutInv(w', c') {
      assert CheckoutInv(w, c');
      VolumeStoredFor(w, w', c, Derived(x), v, x, c');
    }
    hide CheckoutInv, Core, Engaged, HasFinal;
    OwnVolume(w, w', c, Derived(x), v);
  }

  lemma FinalShape(w: World, w': World, c: Uid, p: Proc, v: Volume, x: Uid)
    requires Grows(w, w') && w'.taken == w.taken && x in w.taken && w.taken[x].checkout == c && c in w.checkouts
    requires w.cluster.next < w'.cluster.next && v.rv == w.cluster.next
    requires 0 < v.uid < w'.cluster.next && !v.deleting
    requires CarriesOrigin(w, x, v)
    requires RECLAIM_KEY in v.annotations && v.annotations[RECLAIM_KEY] == w.origin[x].policy
    requires v.spec.reclaimPolicy == w.origin[x].policy
    requires p.checkout.claimKey == w.checkouts[c].claim && p.mem.claim.uid in w.owned
    requires v.spec.claimRef == Some(ClaimRef(p.checkout.claimKey, p.mem.claim.uid))
    requires v.spec.csi.Some? ==> v.spec.csi.value == ReadOnly(v.spec.accessModes)
    ensures VolumeShape(w', Derived(x), v)
  {
  }

  lemma FinalStoredFor(w: World, w': World, c: Uid, v: Volume, x: Uid)
    requires CheckoutInv(w, c) && c in w.checkouts && Engaged(w, c, x) && HasFinal(w, c)
    requires w'.origin == w.origin
    requires w'.checkouts == w.checkouts && w'.taken == w.taken && w'.destroyed == w.destroyed
    requires w'.cluster.claims == w.cluster.claims && w'.cluster.volumes == w.cluster.volumes[Derived(x) := v]
    requires v.spec.claimRef.Some? && v.spec.claimRef.value.uid == FinalClaim(w, c).uid
    requires v.spec.accessModes == FinalClaim(w, c).spec.accessModes
    ensures CheckoutInv(w', c)
  {
  }

  // ---------------------------------------------------------------- cleaning up

  /** The reconcile's deletion of its locked volume, or claim, was accepted. */
  ghost predicate VolumeDropped(w: World, w': World, p: Proc, existed: bool) {
    && p.mem.lockedVolume.Some?
    && var v := p.mem.lockedVolume.value;
    && ServeDropVolume(w.cluster, v.name, v.volume.uid) == (w'.cluster, Dropped(existed))
    && SameHistory(w, w') && w'.inits == w.inits && w'.destroyed == w.destroyed
  }

  ghost predicate ClaimDropped(w: World, w': World, p: Proc, existed: bool) {
    && ServeDropClaim(w.cluster, p.checkout.lockedKey, p.mem.locked.uid) == (w'.cluster, Dropped(existed))
    && SameHistory(w, w') && w'.inits == w.inits && w'.destroyed == w.destroyed
  }

  lemma RemoveLockedVolumeOk(w: World, w': World, c: Uid, p: Proc, existed: bool)
    requires Core(w) && ProcInv(w, c, p) && p.pc == RemoveLockedVolume
    requires VolumeDropped(w, w', p, existed)
    ensures Harmless(w, w', Some(c)) && ProcInv(w', c, Resume(p, Dropped(existed)))
  {
    hide Resume, CheckoutInv, HistoryInv, Configured, Rely, Grows, Looking, ClaimsInv;
    var n := p.mem.lockedVolume.value.name;
    var x := n.id;
    AdoptedTaken(w, c, p.mem.locked.uid, p.mem.lockedVolume.value);
    if w'.cluster == w.cluster {
      Unchanged(w, w');
    } else {
      MarkedVolume(w, w', c, x);
    }
    assert Leaving(w', x);
    AfterRemoval(w, w', c, p, x, existed);
  }

  lemma AfterRemoval(w: World, w': World, c: Uid, p: Proc, x: Uid, existed: bool)
    requires ProcInv(w, c, p) && p.pc == RemoveLockedVolume && p.mem.lockedVolume.value.name == Provisioned(x)
    requires Grows(w, w') && w'.cluster.claims == w.cluster.claims && w'.taken == w.taken && Leaving(w', x)
    ensures ProcInv(w', c, Resume(p, Dropped(existed)))
  {
    hide ResumeScan, Configured, ReplicaFacts, Snapshot, Looking, VolumeSeen;
  }

  /** Our locked volume is marked for deletion while the final claim is bound. */
  lemma MarkedVolume(w: World, w': World, c: Uid, x: Uid)
    requires Core(w) && c in w.checkouts && x in w.taken && w.taken[x].checkout == c
    requires Provisioned(x) in w.cluster.volumes && !w.cluster.volumes[Provisioned(x)].deleting
    requires HasLocked(w, c) ==> BoundFinal(w, c)
    requires SameHistory(w, w') && w'.inits == w.inits && w'.destroyed == w.destroyed
    requires w'.cluster == w.cluster.(
      volumes := w.cluster.volumes[Provisioned(x) := w.cluster.volumes[Provisioned(x)].(deleting := true, rv := w.cluster.next)],
      next := w.cluster.next + 1)
    ensures Harmless(w, w', Some(c))
  {
    hide Harmless, HistoryInv, ClaimsInv, CheckoutInv, Grows, VolumeShape;
    var n, v := Provisioned(x), w'.cluster.volumes[Provisioned(x)];
    HistoryFrame(w, w');
    MarkedShape(w, w', x);
    forall c' | c' in w.checkouts ensures CheckoutInv(w', c') {
      assert CheckoutInv(w, c');
      if c' != c {
        VolumeStoredFor(w, w', c, n, v, x, c');
      } else {
        MarkedFor(w, w', c, x);
      }
    }
    hide Core, HasLocked, BoundFinal, Taken;
    OwnVolume(w, w', c, n, v);
  }

  lemma MarkedShape(w: World, w': World, x: Uid)
    requires VolumesInv(w) && x in w.taken && Provisioned(x) in w.cluster.volumes && Grows(w, w')
    requires w.cluster.next < w'.cluster.next && w'.taken == w.taken
    ensures var v := w.cluster.volumes[Provisioned(x)].(deleting := true, rv := w.cluster.next);
      VolumeShape(w', Provisioned(x), v) && Taken(w', x, v)
  {
    hide Anchored;
    assert VolumeShape(w, Provisioned(x), w.cluster.volumes[Provisioned(x)]);
  }

  lemma MarkedFor(w: World, w': World, c: Uid, x: Uid)
    requires CheckoutInv(w, c) && c in w.checkouts
    requires HasLocked(w, c) ==> BoundFinal(w, c)
    requires w'.origin == w.origin
    requires w'.checkouts == w.checkouts && w'.taken == w.taken && w'.destroyed == w.destroyed
    requires w'.cluster.claims == w.cluster.claims
    requires Provisioned(x) in w.cluster.volumes
    requires w'.cluster.volumes
          == w.cluster.volumes[Provisioned(x) := w.cluster.volumes[Provisioned(x)].(deleting := true, rv := w.cluster.next)]
    ensures CheckoutInv(w', c)
  {
  }

  lemma RemoveLockedOk(w: World, w': World, c: Uid, p: Proc, existed: bool)
    requires Core(w) && ProcInv(w, c, p) && p.pc == RemoveLocked
    requires ClaimDropped(w, w', p, existed)
    ensures Harmless(w, w', Some(c)) && ProcInv(w', c, Resume(p, Dropped(existed)))
  {
    hide Core, Extends, Rely, LockedRead, FinalBound, Resume, CheckoutInv, HistoryInv, Configured, ReplicaFacts,
      ProcInv;
    ResumedRemoval(p, existed);
    EndedInv(w, w', c, p, Resume(p, Dropped(existed)));
    if w'.cluster == w.cluster {
      Unchanged(w, w');
    } else {
      LockedDropped(w, w', c, p);
    }
  }

  lemma LockedDropped(w: World, w': World, c: Uid, p: Proc)
    requires Core(w) && ProcInv(w, c, p) && p.pc == RemoveLocked
    requires ServeDropClaim(w.cluster, p.checkout.lockedKey, p.mem.locked.uid).0 == w'.cluster != w.cluster
    requires SameHistory(w, w') && w'.inits == w.inits && w'.destroyed == w.destroyed
    ensures Harmless(w, w', Some(c))
  {
    hide VolumesInv, CheckoutInv, Extends, Rely, LockedRead, FinalBound, BoundFinal, Engaged, Leaving, ProcKnows,
      VolumeShape, Grows, Handed;
    var x := RemovableLocked(w, c, p);
    MarkedLocked(w, w', c, x);
    PlainStep(w, w');
    OneCheckout(w, w', c, p.checkout.lockedKey, Some(c));
  }

  /** The locked claim is deleted only once its volume is on its way out. */
  lemma RemovableLocked(w: World, c: Uid, p: Proc) returns (x: Uid)
    requires Core(w) && ProcInv(w, c, p) && p.pc == RemoveLocked
    requires p.checkout.lockedKey in w.cluster.claims && w.cluster.claims[p.checkout.lockedKey].uid == p.mem.locked.uid
    ensures HasLocked(w, c) && CheckoutInv(w, c) && ClaimShape(w, p.checkout.lockedKey, w.cluster.claims[p.checkout.lockedKey])
    ensures Engaged(w, c, x) && BoundFinal(w, c) && Leaving(w, x)
  {
    hide HistoryInv, VolumesInv, Looking, Snapshot, Configured, VolumeSeen;
    assert ClaimShape(w, p.checkout.lockedKey, w.cluster.claims[p.checkout.lockedKey]);
    assert CheckoutInv(w, c);
    x := LockedClaim(w, c).spec.volumeName.value.id;
    assert Engaged(w, c, x);
  }

  lemma MarkedLocked(w: World, w': World, c: Uid, x: Uid)
    requires CheckoutInv(w, c) && c in w.checkouts && w.checkouts[c].locked != w.checkouts[c].claim
    requires Engaged(w, c, x) && BoundFinal(w, c) && Leaving(w, x)
    requires w'.origin == w.origin
    requires w'.checkouts == w.checkouts && w'.taken == w.taken && w'.destroyed == w.destroyed
    requires w'.cluster.volumes == w.cluster.volumes
    requires w'.cluster.claims
          == w.cluster.claims[w.checkouts[c].locked := LockedClaim(w, c).(deleting := true, rv := w.cluster.next)]
    ensures CheckoutInv(w', c)
  {
    hide HasLocked;
    assert HasFinal(w', c) && FinalClaim(w', c) == FinalClaim(w, c);
  }
}
