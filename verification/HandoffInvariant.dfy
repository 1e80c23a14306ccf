/** The inductive invariant of the handoff, and the two relations under which
    what a running reconcile knows stays true while others act. */
module HandoffInvariant {
  import opened Labels
  import opened Kube
  import opened Replica
  import opened Checkouts
  import opened World

  // ------------------------------------------------------------------ volumes

  /** Storage, source kind, class and size are those of provisioning, and no label or
      annotation from then is lost. */
  ghost predicate CarriesOrigin(w: World, x: Uid, o: Volume) {
    && x in w.origin
    && o.spec.handle == x
    && o.spec.csi.Some? == w.origin[x].csi
    && o.spec.storageClass == w.origin[x].storageClass
    && o.spec.capacity == w.origin[x].capacity
    && Bears(o.labels, w.origin[x].labels) && Bears(o.annotations, w.origin[x].annotations)
  }

  /** A pool volume nobody took: its own policy, its own claim, labels and annotations
      as they were provisioned, none of them ours. */
  ghost predicate Untaken(w: World, x: Uid, o: Volume) {
    && x in w.origin
    && o.labels == w.origin[x].labels && o.annotations == w.origin[x].annotations
    && RECLAIM_KEY !in o.annotations
    && o.spec.reclaimPolicy == w.origin[x].policy
    && o.spec.claimRef == Some(w.origin[x].claim)
    && !o.deleting
  }

  /** A pool volume a checkout took: retained, policy remembered, re-pointed. */
  ghost predicate Taken(w: World, x: Uid, o: Volume) {
    && x in w.origin && x in w.taken && w.taken[x].checkout in w.checkouts
    && RECLAIM_KEY in o.annotations
    && o.annotations[RECLAIM_KEY] == w.origin[x].policy
    && o.spec.reclaimPolicy == RETAIN
    && o.spec.claimRef == Some(ClaimRef(w.checkouts[w.taken[x].checkout].locked, w.taken[x].locked))
  }

  /** The requester's volume over storage x. */
  ghost predicate Final(w: World, x: Uid, o: Volume) {
    && x in w.origin && x in w.taken && w.taken[x].checkout in w.checkouts
    && RECLAIM_KEY in o.annotations
    && o.annotations[RECLAIM_KEY] == w.origin[x].policy
    && o.spec.reclaimPolicy == w.origin[x].policy
    && o.spec.claimRef.Some?
    && o.spec.claimRef.value.key == w.checkouts[w.taken[x].checkout].claim
    && o.spec.claimRef.value.uid in w.owned
    && (o.spec.csi.Some? ==> o.spec.csi.value == ReadOnly(o.spec.accessModes))
    && !o.deleting
  }

  ghost predicate VolumeShape(w: World, n: VolumeName, o: Volume) {
    && 0 < o.uid < w.cluster.next && o.rv < w.cluster.next
    && match n
       case Provisioned(x) =>
         o.uid == x && CarriesOrigin(w, x, o) && o.spec.accessModes == w.origin[x].accessModes
         && (Untaken(w, x, o) || Taken(w, x, o))
       case Derived(x) => CarriesOrigin(w, x, o) && Final(w, x, o)
  }

  /** `o` was once stored under `n`, and still is if nothing newer is. */
  ghost predicate Snapshot(w: World, n: VolumeName, o: Volume) {
    && VolumeShape(w, n, o)
    && (n in w.cluster.volumes && w.cluster.volumes[n].uid == o.uid && w.cluster.volumes[n].rv == o.rv
        ==> w.cluster.volumes[n] == o)
  }

  /** The locked claim that took x is still there and still names it. */
  ghost predicate Anchored(w: World, x: Uid) {
    && x in w.taken
    && HasLocked(w, w.taken[x].checkout)
    && LockedClaim(w, w.taken[x].checkout).uid == w.taken[x].locked
    && LockedClaim(w, w.taken[x].checkout).spec.volumeName == Some(Provisioned(x))
  }

  ghost predicate VolumesInv(w: World) {
    && (forall n | n in w.cluster.volumes :: VolumeShape(w, n, w.cluster.volumes[n]))
    && (forall x | Provisioned(x) in w.cluster.volumes ::
          var o := w.cluster.volumes[Provisioned(x)];
          && (x in w.taken ==> Taken(w, x, o))
          && (x !in w.taken ==> x !in w.destroyed)
          && (x in w.taken && !o.deleting ==> Anchored(w, x)))
  }

  // ---------------------------------------------------------- initialization

  /** u is a claim that is no checkout's and was created under the name k. */
  ghost predicate Named(i: Inits, k: Key, u: Uid) {
    u in i.named && i.named[u] == k
  }

  /** The own init job of claim u, named k, ended with success. */
  ghost predicate Ran(i: Inits, k: Key, u: Uid) {
    Named(i, k, u) && u in i.ran
  }

  /** The claim u, named k, was made available on the success of its own init job or
      of a job that it borrowed, left behind by another claim of that name. */
  ghost predicate Readied(i: Inits, k: Key, u: Uid) {
    Named(i, k, u) && (u in i.ran || (u in i.borrowed && Ran(i, k, i.borrowed[u])))
  }

  ghost predicate InitsInv(i: Inits, next: nat) {
    && (forall u | u in i.named :: 0 < u < next)
    && (forall u | u in i.ran :: u in i.named)
    && (forall u | u in i.borrowed :: u in i.named && i.borrowed[u] != u && Ran(i, i.named[u], i.borrowed[u]))
  }

  /** r, read in a load of the pool, is available, not stale, the pool's own or
      unowned; x was provisioned for its claim, with the labels and annotations read,
      and its claim was readied. */
  ghost predicate Handed(w: World, x: Uid, pool: Uid, r: Replica) {
    && x in w.origin
    && Available(r) && !Stale(r)
    && (r.claim.controller == None || r.claim.controller == Some(PoolOwner(pool)))
    && r.volume.value.name == Provisioned(x)
    && r.volume.value.volume.labels == w.origin[x].labels
    && r.volume.value.volume.annotations == w.origin[x].annotations
    && w.origin[x].claim == ClaimRef(r.key, r.claim.uid)
    && Readied(w.inits, r.key, r.claim.uid)
  }

  // ------------------------------------------------------------------ history

  ghost predicate HistoryInv(w: World) {
    && 0 < w.cluster.next
    && (forall c | c in w.checkouts :: w.checkouts[c].locked != w.checkouts[c].claim)
    && (forall x | x in w.origin ::
          && 0 < x < w.cluster.next && w.origin[x].claim.uid < w.cluster.next && w.origin[x].claim.uid !in w.owned
          && Named(w.inits, w.origin[x].claim.key, w.origin[x].claim.uid))
    && (forall x | x in w.taken ::
          && x in w.origin && w.taken[x].checkout in w.checkouts
          && w.taken[x].locked in w.owned && w.owned[w.taken[x].locked] == w.taken[x].checkout
          && Handed(w, x, w.taken[x].pool, w.taken[x].replica))
    && InitsInv(w.inits, w.cluster.next)
    && (forall u | u in w.owned :: 0 < u < w.cluster.next)
    && (forall h | h in w.destroyed :: h < w.cluster.next)
  }

  ghost predicate ClaimShape(w: World, k: Key, c: Claim) {
    && 0 < c.uid < w.cluster.next
    && (c.uid in w.owned <==> CheckoutOwned(c))
    && (CheckoutOwned(c) ==>
          && w.owned[c.uid] == c.controller.value.uid
          && c.controller.value.uid in w.checkouts
          && (k == w.checkouts[c.controller.value.uid].locked || k == w.checkouts[c.controller.value.uid].claim))
    && (!CheckoutOwned(c) ==> Named(w.inits, k, c.uid))
    && (Marked(c.annotations) && !CheckoutOwned(c) ==> Readied(w.inits, k, c.uid))
  }

  ghost predicate ClaimsInv(w: World) {
    && (forall k | k in w.cluster.claims :: ClaimShape(w, k, w.cluster.claims[k]))
    && (forall k | k in w.cluster.jobs ::
          0 < w.cluster.jobs[k].uid < w.cluster.next
          && Named(w.inits, k, w.cluster.jobs[k].owner)
          && (w.cluster.jobs[k].outcome == Succeeded ==> w.cluster.jobs[k].owner in w.inits.ran))
  }

  // ---------------------------------------------------------------- checkouts

  /** The checkout's locked claim has taken the volume it names. */
  ghost predicate Engaged(w: World, c: Uid, x: Uid) {
    && HasLocked(w, c)
    && LockedClaim(w, c).spec.volumeName == Some(Provisioned(x))
    && x in w.taken
    && w.taken[x].checkout == c
    && w.taken[x].locked == LockedClaim(w, c).uid
  }

  ghost predicate BoundFinal(w: World, c: Uid) {
    HasFinal(w, c) && FinalClaim(w, c).phase == Bound
  }

  /** The locked volume is gone or on its way out. */
  ghost predicate Leaving(w: World, x: Uid) {
    Provisioned(x) !in w.cluster.volumes || w.cluster.volumes[Provisioned(x)].deleting
  }

  ghost predicate FinalInv(w: World, c: Uid, x: Uid)
    requires HasFinal(w, c)
  {
    var f := FinalClaim(w, c);
    && x in w.taken && w.taken[x].checkout == c
    && x in w.origin && f.spec.storageClass == Some(w.origin[x].storageClass) && f.spec.request == w.origin[x].capacity
    && x !in w.destroyed
    && (HasLocked(w, c) ==> Engaged(w, c, x) && !f.deleting)
    && (!HasLocked(w, c) ==> f.phase == Bound)
    && (f.phase == Bound ==> Derived(x) in w.cluster.volumes)
    && (Derived(x) in w.cluster.volumes ==>
          var n := w.cluster.volumes[Derived(x)];
          && n.spec.claimRef.Some? && n.spec.claimRef.value.uid == f.uid
          && n.spec.accessModes == f.spec.accessModes)
  }

  ghost predicate EngagedInv(w: World, c: Uid, x: Uid) {
    && x !in w.destroyed
    && (Leaving(w, x) ==> BoundFinal(w, c))
    && (Derived(x) in w.cluster.volumes ==> HasFinal(w, c))
  }

  ghost predicate CheckoutInv(w: World, c: Uid) {
    && (HasLocked(w, c) ==>
          var l := LockedClaim(w, c);
          && l.spec.volumeName.Some? && l.spec.volumeName.value.Provisioned?
          && l.spec.volumeName.value.id in w.origin
          && l.spec.storageClass == Some(w.origin[l.spec.volumeName.value.id].storageClass)
          && l.spec.request == w.origin[l.spec.volumeName.value.id].capacity
          && l.spec.accessModes == w.origin[l.spec.volumeName.value.id].accessModes
          && (forall x | x in w.taken && w.taken[x].checkout == c && w.taken[x].locked == l.uid ::
                l.spec.volumeName == Some(Provisioned(x)))
          && (Engaged(w, c, l.spec.volumeName.value.id) ==> EngagedInv(w, c, l.spec.volumeName.value.id))
          && (l.deleting ==>
                && Engaged(w, c, l.spec.volumeName.value.id)
                && BoundFinal(w, c)
                && Leaving(w, l.spec.volumeName.value.id)))
    && (HasFinal(w, c) ==>
          var f := FinalClaim(w, c);
          && f.spec.volumeName.Some? && f.spec.volumeName.value.Derived?
          && FinalInv(w, c, f.spec.volumeName.value.of))
  }

  ghost predicate Core(w: World) {
    && HistoryInv(w)
    && ClaimsInv(w)
    && VolumesInv(w)
    && forall c | c in w.checkouts :: CheckoutInv(w, c)
  }

  // --------------------------------------------------- what a reconcile knows

  /** The locked claim as it was read. */
  ghost predicate LockedRead(w: World, c: Uid, h: Held) {
    && (h.locked.uid == 0 ==> !HasLocked(w, c))
    && (h.locked.uid != 0 ==>
          && h.locked.uid in w.owned && w.owned[h.locked.uid] == c
          && h.locked.spec.volumeName.Some? && h.locked.spec.volumeName.value.Provisioned?
          && (HasLocked(w, c) ==>
                && LockedClaim(w, c).uid == h.locked.uid
                && LockedClaim(w, c).spec.volumeName == h.locked.spec.volumeName))
  }

  ghost predicate Adopted(w: World, h: Held, v: NamedVolume) {
    && v.name.Provisioned?
    && Snapshot(w, v.name, v.volume)
    && h.locked.uid != 0
    && h.locked.spec.volumeName == Some(v.name)
    && v.volume.spec.claimRef.Some?
    && v.volume.spec.claimRef.value.uid == h.locked.uid
  }

  /** The locked volume as it was read: adopted, or the volume taken is gone. */
  ghost predicate LockedVolumeRead(w: World, c: Uid, h: Held) {
    && (h.lockedVolume.Some? ==> Adopted(w, h, h.lockedVolume.value))
    && (h.lockedVolume.None? ==>
          forall x: Uid {:trigger Engaged(w, c, x)} | Engaged(w, c, x) :: Provisioned(x) !in w.cluster.volumes)
  }

  /** The final claim was read and is not bound: while the locked claim stands,
      so does what was read. */
  ghost predicate FinalUnbound(w: World, c: Uid, h: Held) {
    && h.claim.phase != Bound
    && (h.claim.uid == 0 ==> h.volume.None?)
    && (h.locked.uid == 0 ==> !HasFinal(w, c) && h.claim.uid == 0)
    && (HasLocked(w, c) ==> !LockedClaim(w, c).deleting && FinalKnown(w, c, h.claim.uid))
    && (h.lockedVolume.None? ==> forall x: Uid {:trigger Engaged(w, c, x)} :: !Engaged(w, c, x))
  }

  ghost predicate FinalKnown(w: World, c: Uid, uid: Uid) {
    && (uid == 0 ==> !HasFinal(w, c))
    && (uid != 0 ==> HasFinal(w, c) && FinalClaim(w, c).uid == uid)
  }

  ghost predicate FinalBound(w: World, c: Uid, h: Held) {
    && h.claim.phase == Bound
    && (HasLocked(w, c) ==> BoundFinal(w, c))
  }

  /** The claim in memory was readied before it was read. */
  ghost predicate MarkedSoundly(w: World, r: Replica) {
    r.claim.uid != 0 && Readied(w.inits, r.key, r.claim.uid)
  }

  /** What reading a replica established. */
  ghost predicate ReplicaFacts(w: World, r: Replica) {
    && (r.claim.uid != 0 ==>
          && r.claim.uid < w.cluster.next && (r.claim.uid in w.owned <==> CheckoutOwned(r.claim))
          && (!CheckoutOwned(r.claim) ==> Named(w.inits, r.key, r.claim.uid)))
    && (Marked(r.claim.annotations) && !CheckoutOwned(r.claim) ==> MarkedSoundly(w, r) || r.job.outcome == Succeeded)
    && (r.job.outcome == Succeeded ==> r.job.uid != 0 && Ran(w.inits, r.key, r.job.owner))
    && (r.volume.Some? ==>
          && r.claim.uid != 0
          && Snapshot(w, r.volume.value.name, r.volume.value.volume)
          && r.volume.value.volume.spec.claimRef.Some?
          && r.volume.value.volume.spec.claimRef.value.uid == r.claim.uid)
  }

  ghost predicate ReplicaInv(w: World, p: ReplicaProc) {
    && ReplicaFacts(w, p.mem)
    && PHASE_KEY !in p.pool.spec.template.annotations
    && (p.pc.PersistDropJob? || p.pc.PersistClaim? || p.pc.PersistJob? ==>
          p.mem.claim.controller == Some(PoolOwner(p.pool.uid)))
    && (p.pc.LoadJob? || p.pc.LoadClaim? ==> p.mem.claim == NEW_CLAIM)
    && (p.pc.LoadJob? || p.pc.LoadClaim? || p.pc.LoadVolume? ==> p.mem.volume == None)
    && (p.pc.LoadVolume? ==>
          p.mem.claim.uid != 0
          && (Marked(p.mem.claim.annotations) && !CheckoutOwned(p.mem.claim) ==> MarkedSoundly(w, p.mem)))
    && (p.pc.DeleteClaim? ==> p.mem.claim.uid != 0)
    && (p.pc.PersistJob? ==> p.mem.claim.uid != 0 && p.mem.job.owner == p.mem.claim.uid)
    && (p.pc.DeleteJob? || p.pc.DeleteClaim? ==> MayOwn(p))
  }

  ghost predicate LoadInv(w: World, p: ReplicaProc) {
    && ReplicaFacts(w, p.mem)
    && (p.pc.LoadJob? || p.pc.LoadClaim? || p.pc.LoadVolume?)
    && p.mem.volume == None
    && (p.pc.LoadVolume? ==> p.mem.claim.uid != 0)
    && (p.pc.LoadVolume? || p.mem.claim == NEW_CLAIM)
    && (Marked(p.mem.claim.annotations) && !CheckoutOwned(p.mem.claim) ==> MarkedSoundly(w, p.mem))
  }

  ghost predicate Takeable(w: World, pool: Uid, r: Replica) {
    && r.volume.Some? && r.volume.value.name.Provisioned?
    && Snapshot(w, r.volume.value.name, r.volume.value.volume)
    && Untaken(w, r.volume.value.name.id, r.volume.value.volume)
    && Handed(w, r.volume.value.name.id, pool, r)
  }

  ghost predicate ScanInv(w: World, s: Scan) {
    && (s.pc == Reading ==> LoadInv(w, s.cur))
    && (forall i | 0 <= i < |s.available| :: Takeable(w, s.pool.uid, s.available[i]))
  }

  /** The volume about to be written as the locked one, as it was read. */
  ghost predicate VolumeSeen(w: World, p: Proc) {
    && p.seen.claim.phase != Bound
    && (p.seen.claim.uid == 0 ==> p.seen.volume.None?)
    && p.seen.lockedVolume.Some?
    && var v := p.seen.lockedVolume.value;
    && v.name.Provisioned?
    && Snapshot(w, v.name, v.volume)
    && v.volume.spec.claimRef.Some?
    && (p.source.None? ==> Adopted(w, p.seen, v))
    && (p.source.Some? ==> Untaken(w, v.name.id, v.volume) && Handed(w, v.name.id, p.scan.pool.uid, p.source.value))
  }

  /** The locked claim stands, names the volume and is not on its way out. */
  ghost predicate Standing(w: World, p: Proc, c: Uid) {
    && p.mem.lockedVolume.Some? && p.seen.lockedVolume.Some?
    && HasLocked(w, c)
    && LockedClaim(w, c).uid == p.mem.locked.uid
    && LockedClaim(w, c).spec.volumeName == Some(p.seen.lockedVolume.value.name)
    && !LockedClaim(w, c).deleting
  }

  ghost predicate AtWriteLocked(w: World, c: Uid, p: Proc) {
    var m := Configured(p.checkout, p.seen);
    && LockedRead(w, c, p.seen) && VolumeSeen(w, p)
    && (HasLocked(w, c) ==> !LockedClaim(w, c).deleting && FinalKnown(w, c, p.seen.claim.uid))
    && (p.seen.locked.uid == 0 ==> !HasFinal(w, c) && p.seen.claim.uid == 0)
    && (p.source.Some? ==> forall x: Uid {:trigger Engaged(w, c, x)} :: !Engaged(w, c, x))
    && p.mem == m.(locked := OwnedBy(p.checkout, m.locked))
  }

  ghost predicate AtWriteLockedVolume(w: World, c: Uid, p: Proc) {
    var m := Configured(p.checkout, p.seen);
    && VolumeSeen(w, p) && Standing(w, p, c) && FinalKnown(w, c, p.seen.claim.uid)
    && (p.source.None? ==> p.seen.locked.uid == p.mem.locked.uid)
    && p.mem == m.(locked := p.mem.locked, lockedVolume := Some(Synced(m.lockedVolume.value, p.mem.locked.uid)))
  }

  ghost predicate AtWriteFinal(w: World, c: Uid, p: Proc) {
    var m := Configured(p.checkout, p.seen);
    && VolumeSeen(w, p) && Standing(w, p, c) && FinalKnown(w, c, p.seen.claim.uid)
    && Engaged(w, c, p.seen.lockedVolume.value.name.id)
    && p.mem.claim == OwnedBy(p.checkout, m.claim) && p.mem.volume == m.volume
  }

  ghost predicate AtWriteFinalVolume(w: World, c: Uid, p: Proc) {
    var m := Configured(p.checkout, p.seen);
    && VolumeSeen(w, p) && Standing(w, p, c)
    && Engaged(w, c, p.seen.lockedVolume.value.name.id)
    && HasFinal(w, c)
    && FinalClaim(w, c).uid == p.mem.claim.uid
    && FinalClaim(w, c).spec.accessModes == p.checkout.accessModes
    && m.volume.Some?
    && p.mem.volume == Some(Synced(m.volume.value, p.mem.claim.uid))
    && p.mem.volume.value.name == Derived(p.seen.lockedVolume.value.name.id)
  }

  ghost predicate AtReadLockedVolume(w: World, c: Uid, p: Proc) {
    && p.source.None? && p.mem == NOTHING_HELD.(locked := p.mem.locked) && p.mem.locked.uid != 0
    && LockedRead(w, c, p.mem)
  }

  ghost predicate AtReadFinal(w: World, c: Uid, p: Proc) {
    && p.source.None? && p.mem.claim == NEW_CLAIM && p.mem.volume.None?
    && LockedRead(w, c, p.mem) && LockedVolumeRead(w, c, p.mem)
  }

  ghost predicate AtReadFinalVolume(w: World, c: Uid, p: Proc) {
    && p.source.None? && p.mem.volume.None? && p.mem.claim.uid != 0
    && LockedRead(w, c, p.mem) && LockedVolumeRead(w, c, p.mem)
    && (FinalUnbound(w, c, p.mem) || FinalBound(w, c, p.mem))
  }

  /** While the pool is looked into. */
  ghost predicate Looking(w: World, c: Uid, p: Proc) {
    && LockedRead(w, c, p.mem) && FinalUnbound(w, c, p.mem) && p.mem.lockedVolume.None?
    && (p.pc != ReadPool ==> ScanInv(w, p.scan))
  }

  ghost predicate AtRemoveLockedVolume(w: World, c: Uid, p: Proc) {
    && p.mem.lockedVolume.Some? && Adopted(w, p.mem, p.mem.lockedVolume.value)
    && LockedRead(w, c, p.mem) && FinalBound(w, c, p.mem)
  }

  ghost predicate AtRemoveLocked(w: World, c: Uid, p: Proc) {
    && p.mem.locked.uid != 0 && LockedRead(w, c, p.mem) && FinalBound(w, c, p.mem)
    && (forall x: Uid {:trigger Engaged(w, c, x)} | Engaged(w, c, x) :: Leaving(w, x))
  }

  ghost predicate ProcKnows(w: World, c: Uid, p: Proc) {
    && (p.pc == ReadLocked ==> p.mem == NOTHING_HELD && p.source.None?)
    && (p.pc == ReadLockedVolume ==> AtReadLockedVolume(w, c, p))
    && (p.pc == ReadFinal ==> AtReadFinal(w, c, p))
    && (p.pc == ReadFinalVolume ==> AtReadFinalVolume(w, c, p))
    && (p.pc == ReadPool || p.pc == Scanning || p.pc == Choosing ==> Looking(w, c, p))
    && (p.pc == WriteLocked ==> AtWriteLocked(w, c, p))
    && (p.pc == WriteLockedVolume ==> AtWriteLockedVolume(w, c, p))
    && (p.pc == WriteFinal ==> AtWriteFinal(w, c, p))
    && (p.pc == WriteFinalVolume ==> AtWriteFinalVolume(w, c, p))
    && (p.pc == RemoveLockedVolume ==> AtRemoveLockedVolume(w, c, p))
    && (p.pc == RemoveLocked ==> AtRemoveLocked(w, c, p))
  }

  ghost predicate ProcInv(w: World, c: Uid, p: Proc) {
    && c in w.checkouts
    && p.checkout.uid == c
    && p.checkout.lockedKey == w.checkouts[c].locked
    && p.checkout.claimKey == w.checkouts[c].claim
    && ProcKnows(w, c, p)
  }

  /** What the reconciles of checkouts hold, and what pools hold, is sound. */
  ghost predicate ProcsInv(w: World) {
    forall c | c in w.procs :: ProcInv(w, c, w.procs[c])
  }

  ghost predicate ReplicasInv(w: World) {
    forall id | id in w.replicas :: ReplicaInv(w, w.replicas[id])
  }

  ghost predicate Inv(w: World) {
    Core(w) && ProcsInv(w) && ReplicasInv(w)
  }

  ghost predicate ProcAt(w: World, c: Uid) {
    c in w.procs ==> ProcInv(w, c, w.procs[c])
  }

  ghost predicate MemAt(w: World, id: nat) {
    id in w.replicas ==> ReplicaInv(w, w.replicas[id])
  }

  // -------------------------------------------------------------- stability

  /** What is known of initialization is not unlearned. */
  ghost predicate Learns(i: Inits, i': Inits) {
    && (forall u | u in i.named :: u in i'.named && i'.named[u] == i.named[u])
    && i.ran <= i'.ran
    && (forall u | u in i.borrowed :: u in i'.borrowed && i'.borrowed[u] == i.borrowed[u])
  }

  /** History only grows, and what is fresh is fresh. */
  ghost predicate Grows(w: World, w': World) {
    && w.cluster.next <= w'.cluster.next
    && w'.checkouts == w.checkouts
    && (forall x | x in w.origin :: x in w'.origin && w'.origin[x] == w.origin[x])
    && (forall x | x in w.taken :: x in w'.taken && w'.taken[x] == w.taken[x])
    && (forall u | u in w.owned :: u in w'.owned && w'.owned[u] == w.owned[u])
    && (forall u | u in w'.owned && u < w.cluster.next :: u in w.owned)
    && Learns(w.inits, w'.inits)
  }

  /** What every step respects besides: a stored volume that changed carries a
      newer version, and a volume that left does not come back. */
  ghost predicate Extends(w: World, w': World) {
    && Grows(w, w')
    && (forall n | n in w'.cluster.volumes ::
          || (n in w.cluster.volumes && w'.cluster.volumes[n] == w.cluster.volumes[n])
          || w.cluster.next <= w'.cluster.volumes[n].rv)
    && (forall x: Uid | x < w.cluster.next && Leaving(w, x) :: Leaving(w', x))
    && (forall x: Uid | x < w.cluster.next && Provisioned(x) !in w.cluster.volumes :: Provisioned(x) !in w'.cluster.volumes)
  }

  /** What the reconcile of checkout c may count on while others act. */
  ghost predicate Rely(w: World, w': World, c: Uid) {
    && (HasLocked(w', c) ==>
          && HasLocked(w, c)
          && LockedClaim(w', c).uid == LockedClaim(w, c).uid
          && LockedClaim(w', c).spec.volumeName == LockedClaim(w, c).spec.volumeName
          && LockedClaim(w', c).deleting == LockedClaim(w, c).deleting)
    && (HasLocked(w, c) && !LockedClaim(w, c).deleting ==> HasLocked(w', c))
    && (HasFinal(w', c) ==>
          && HasFinal(w, c)
          && FinalClaim(w', c).uid == FinalClaim(w, c).uid
          && FinalClaim(w', c).spec.volumeName == FinalClaim(w, c).spec.volumeName
          && FinalClaim(w', c).spec.accessModes == FinalClaim(w, c).spec.accessModes
          && (BoundFinal(w, c) ==> BoundFinal(w', c)))
    && (HasFinal(w, c) && HasLocked(w', c) ==> HasFinal(w', c))
    && (forall x | x in w'.taken && w'.taken[x].checkout == c :: x in w.taken)
  }

  lemma InitsLater(i: Inits, n: nat, n': nat)
    requires InitsInv(i, n) && n <= n'
    ensures InitsInv(i, n')
  {
  }

  lemma ReadiedStable(i: Inits, i': Inits, k: Key, u: Uid)
    requires Learns(i, i')
    ensures Named(i, k, u) ==> Named(i', k, u)
    ensures Ran(i, k, u) ==> Ran(i', k, u)
    ensures Readied(i, k, u) ==> Readied(i', k, u)
  {
  }

  lemma HandedStable(w: World, w': World, x: Uid, pool: Uid, r: Replica)
    requires Grows(w, w') && Handed(w, x, pool, r)
    ensures Handed(w', x, pool, r)
  {
    ReadiedStable(w.inits, w'.inits, r.key, r.claim.uid);
    hide Readied, Available, Stale, Learns;
  }

  lemma VolumeShapeStable(w: World, w': World, n: VolumeName, o: Volume)
    requires Grows(w, w') && VolumeShape(w, n, o)
    ensures VolumeShape(w', n, o)
  {
  }

  lemma ClaimShapeStable(w: World, w': World, k: Key, c: Claim)
    requires Grows(w, w') && ClaimShape(w, k, c)
    ensures ClaimShape(w', k, c)
  {
  }

  lemma SnapshotStable(w: World, w': World, n: VolumeName, o: Volume)
    requires Extends(w, w') && Snapshot(w, n, o)
    ensures Snapshot(w', n, o)
  {
    hide Grows;
    VolumeShapeStable(w, w', n, o);
  }

  lemma EngagedBack(w: World, w': World, c: Uid, x: Uid)
    requires Extends(w, w') && Rely(w, w', c) && Engaged(w', c, x)
    ensures Engaged(w, c, x)
  {
  }

  lemma ReplicaFactsStable(w: World, w': World, r: Replica)
    requires Extends(w, w') && ReplicaFacts(w, r)
    ensures ReplicaFacts(w', r)
  {
    hide Final, Snapshot;
    if r.volume.Some? {
      SnapshotStable(w, w', r.volume.value.name, r.volume.value.volume);
    }
  }

  lemma ScanStable(w: World, w': World, s: Scan)
    requires Extends(w, w') && ScanInv(w, s)
    ensures ScanInv(w', s)
  {
    hide Final;
    if s.pc == Reading {
      ReplicaFactsStable(w, w', s.cur.mem);
    }
    forall i | 0 <= i < |s.available| ensures Takeable(w', s.pool.uid, s.available[i]) {
      assert Takeable(w, s.pool.uid, s.available[i]);
      SnapshotStable(w, w', s.available[i].volume.value.name, s.available[i].volume.value.volume);
    }
  }

  lemma LockedReadStable(w: World, w': World, c: Uid, h: Held)
    requires Extends(w, w') && Rely(w, w', c) && LockedRead(w, c, h)
    ensures LockedRead(w', c, h)
  {
  }

  lemma FinalStable(w: World, w': World, c: Uid, h: Held)
    requires Extends(w, w') && Rely(w, w', c)
    ensures FinalUnbound(w, c, h) ==> FinalUnbound(w', c, h)
    ensures FinalBound(w, c, h) ==> FinalBound(w', c, h)
  {
    hide Grows;
    forall x: Uid {:trigger Engaged(w', c, x)} | Engaged(w', c, x) ensures Engaged(w, c, x) {
      EngagedBack(w, w', c, x);
    }
  }

  lemma LockedVolumeReadStable(w: World, w': World, c: Uid, h: Held)
    requires Core(w) && Extends(w, w') && Rely(w, w', c) && LockedVolumeRead(w, c, h)
    ensures LockedVolumeRead(w', c, h)
  {
    hide CheckoutInv, ClaimsInv, Rely, Grows, VolumeShape, VolumesInv;
    HeldStable(w, w', h);
    forall x: Uid {:trigger Engaged(w', c, x)} | Engaged(w', c, x) ensures Engaged(w, c, x) && x < w.cluster.next {
      EngagedBack(w, w', c, x);
    }
  }

  lemma LeavingStable(w: World, w': World, c: Uid)
    requires Core(w) && Extends(w, w') && Rely(w, w', c)
    requires forall x: Uid {:trigger Engaged(w, c, x)} | Engaged(w, c, x) :: Leaving(w, x)
    ensures forall x: Uid {:trigger Engaged(w', c, x)} | Engaged(w', c, x) :: Leaving(w', x)
  {
    hide VolumesInv, CheckoutInv, ClaimsInv, Rely, Grows;
    forall x: Uid {:trigger Engaged(w', c, x)} | Engaged(w', c, x) ensures Leaving(w', x) {
      EngagedBack(w, w', c, x);
      assert x < w.cluster.next;
    }
  }

  lemma VolumeSeenStable(w: World, w': World, p: Proc)
    requires Extends(w, w') && VolumeSeen(w, p)
    ensures VolumeSeen(w', p)
  {
    hide Final;
    HeldStable(w, w', p.seen);
  }

  lemma StandingStable(w: World, w': World, p: Proc, c: Uid)
    requires Extends(w, w') && Rely(w, w', c) && Standing(w, p, c)
    ensures Standing(w', p, c)
    ensures forall u :: FinalKnown(w, c, u) ==> FinalKnown(w', c, u)
    ensures forall x: Uid :: Engaged(w, c, x) ==> Engaged(w', c, x)
  {
  }

  lemma WriteLockedStable(w: World, w': World, c: Uid, p: Proc)
    requires Extends(w, w') && Rely(w, w', c) && AtWriteLocked(w, c, p)
    ensures AtWriteLocked(w', c, p)
  {
    hide Configured, Snapshot;
    forall x: Uid {:trigger Engaged(w', c, x)} | Engaged(w', c, x) ensures Engaged(w, c, x) {
      EngagedBack(w, w', c, x);
    }
    LockedReadStable(w, w', c, p.seen);
    VolumeSeenStable(w, w', p);
  }

  lemma WriteLockedVolumeStable(w: World, w': World, c: Uid, p: Proc)
    requires Extends(w, w') && Rely(w, w', c) && AtWriteLockedVolume(w, c, p)
    ensures AtWriteLockedVolume(w', c, p)
  {
    hide Configured, Rely, Grows, VolumeSeen;
    VolumeSeenStable(w, w', p);
    StandingStable(w, w', p, c);
  }

  lemma WriteFinalStable(w: World, w': World, c: Uid, p: Proc)
    requires Extends(w, w') && Rely(w, w', c) && AtWriteFinal(w, c, p)
    ensures AtWriteFinal(w', c, p)
  {
    hide Configured, Rely;
    VolumeSeenStable(w, w', p);
    StandingStable(w, w', p, c);
  }

  lemma WriteFinalVolumeStable(w: World, w': World, c: Uid, p: Proc)
    requires Extends(w, w') && Rely(w, w', c) && AtWriteFinalVolume(w, c, p)
    ensures AtWriteFinalVolume(w', c, p)
  {
    hide Configured, VolumeSeen;
    VolumeSeenStable(w, w', p);
    StandingStable(w, w', p, c);
  }

  lemma ReadStable(w: World, w': World, c: Uid, p: Proc)
    requires Core(w) && Extends(w, w') && Rely(w, w', c) && ProcKnows(w, c, p)
    requires p.pc.ReadFinal? || p.pc.ReadFinalVolume? || p.pc.ReadPool? || p.pc.Scanning? || p.pc.Choosing?
    ensures ProcKnows(w', c, p)
  {
    hide CheckoutInv, HistoryInv, Configured, Rely, Grows, ReplicaFacts, Core, Snapshot, ScanInv, VolumeSeen;
    LockedReadStable(w, w', c, p.mem);
    FinalStable(w, w', c, p.mem);
    if p.pc.ReadFinal? || p.pc.ReadFinalVolume? {
      LockedVolumeReadStable(w, w', c, p.mem);
    }
    if p.pc.Scanning? || p.pc.Choosing? {
      ScanStable(w, w', p.scan);
    }
  }

  lemma RemoveStable(w: World, w': World, c: Uid, p: Proc)
    requires Core(w) && Extends(w, w') && Rely(w, w', c) && ProcKnows(w, c, p)
    requires p.pc.RemoveLockedVolume? || p.pc.RemoveLocked?
    ensures ProcKnows(w', c, p)
  {
    hide CheckoutInv, HistoryInv, Configured, Rely, Grows, ReplicaFacts, Core, Snapshot, ScanInv, VolumeSeen;
    LockedReadStable(w, w', c, p.mem);
    FinalStable(w, w', c, p.mem);
    HeldStable(w, w', p.mem);
    if p.pc.RemoveLocked? {
      LeavingStable(w, w', c);
    }
  }

  lemma WriteStable(w: World, w': World, c: Uid, p: Proc)
    requires Extends(w, w') && Rely(w, w', c) && ProcKnows(w, c, p)
    requires p.pc.WriteLocked? || p.pc.WriteLockedVolume? || p.pc.WriteFinal? || p.pc.WriteFinalVolume?
    ensures ProcKnows(w', c, p)
  {
    hide Configured, ReplicaFacts, Extends, ScanInv, VolumeSeen, Rely, AtWriteLocked, LockedRead, FinalUnbound,
      Synced, Adopted, AtRemoveLocked, AtReadFinalVolume;
    match p.pc
    case WriteLocked => WriteLockedStable(w, w', c, p);
    case WriteLockedVolume => WriteLockedVolumeStable(w, w', c, p);
    case WriteFinal => WriteFinalStable(w, w', c, p);
    case WriteFinalVolume => WriteFinalVolumeStable(w, w', c, p);
  }

  /** What a reconcile knows survives every step of the others. */
  lemma ProcStable(w: World, w': World, c: Uid, p: Proc)
    requires Core(w) && Extends(w, w') && Rely(w, w', c) && ProcInv(w, c, p)
    ensures ProcInv(w', c, p)
  {
    hide CheckoutInv, HistoryInv, Configured, Rely, ReplicaFacts, Core, Looking, AtWriteFinalVolume,
      AtWriteLockedVolume, AtWriteFinal, AtWriteLocked, FinalUnbound, LockedRead, Learns, Adopted;
    if p.pc.WriteLocked? || p.pc.WriteLockedVolume? || p.pc.WriteFinal? || p.pc.WriteFinalVolume? {
      WriteStable(w, w', c, p);
    } else if p.pc.RemoveLockedVolume? || p.pc.RemoveLocked? {
      RemoveStable(w, w', c, p);
    } else if p.pc.ReadLocked? || p.pc.Finished? || p.pc.Abandoned? {
    } else if p.pc.ReadLockedVolume? {
      LockedReadStable(w, w', c, p.mem);
    } else {
      ReadStable(w, w', c, p);
    }
  }

  lemma HeldStable(w: World, w': World, h: Held)
    requires Extends(w, w')
    ensures h.lockedVolume.Some? && Snapshot(w, h.lockedVolume.value.name, h.lockedVolume.value.volume)
        ==> Snapshot(w', h.lockedVolume.value.name, h.lockedVolume.value.volume)
  {
    hide Grows, Snapshot;
    if h.lockedVolume.Some? && Snapshot(w, h.lockedVolume.value.name, h.lockedVolume.value.volume) {
      SnapshotStable(w, w', h.lockedVolume.value.name, h.lockedVolume.value.volume);
    }
  }
}
