/** Every step of anybody but the checkout itself keeps the cluster's part of the
    invariant and what the checkout relies on. */
module HandoffSteps {
  import opened Labels
  import opened Kube
  import opened Replica
  import opened World
  import opened HandoffInvariant

  /** What the rest of the system may do, seen from any checkout but `actor`. */
  ghost predicate Harmless(w: World, w': World, actor: Option<Uid>) {
    && Core(w')
    && Extends(w, w')
    && forall c | c in w.checkouts && actor != Some(c) :: Rely(w, w', c)
  }

  ghost predicate SameHistory(w: World, w': World) {
    && w'.checkouts == w.checkouts
    && w'.origin == w.origin && w'.taken == w.taken && w'.owned == w.owned
  }

  ghost predicate SameCore(w: World, w': World) {
    && SameHistory(w, w')
    && w'.inits == w.inits && w'.destroyed == w.destroyed
    && w'.cluster.claims == w.cluster.claims
    && w'.cluster.volumes == w.cluster.volumes
    && w'.cluster.jobs == w.cluster.jobs
    && w'.cluster.next == w.cluster.next
  }

  /** The checkout's own claims are where they were. */
  ghost predicate SameClaims(w: World, w': World, c: Uid) {
    && HasLocked(w', c) == HasLocked(w, c)
    && (HasLocked(w, c) ==> LockedClaim(w', c) == LockedClaim(w, c))
    && HasFinal(w', c) == HasFinal(w, c)
    && (HasFinal(w, c) ==> FinalClaim(w', c) == FinalClaim(w, c))
  }

  /** A step that leaves volumes and their history alone. */
  ghost predicate ClaimsOnly(w: World, w': World) {
    && Grows(w, w')
    && w'.origin == w.origin && w'.taken == w.taken && w'.destroyed == w.destroyed
    && (forall u | u in w'.owned :: 0 < u < w'.cluster.next) && InitsInv(w'.inits, w'.cluster.next)
    && w'.cluster.volumes == w.cluster.volumes
  }

  ghost predicate JobsInv(w: World) {
    forall k | k in w.cluster.jobs ::
      && 0 < w.cluster.jobs[k].uid < w.cluster.next
      && Named(w.inits, k, w.cluster.jobs[k].owner)
      && (w.cluster.jobs[k].outcome == Succeeded ==> w.cluster.jobs[k].owner in w.inits.ran)
  }

  lemma JobsFrame(w: World, w': World)
    requires JobsInv(w) && Learns(w.inits, w'.inits) && w'.cluster.jobs == w.cluster.jobs && w.cluster.next <= w'.cluster.next
    ensures JobsInv(w')
  {
  }

  /** Cluster steps that write no history. */
  lemma PlainStep(w: World, w': World)
    requires HistoryInv(w) && SameHistory(w, w') && w'.destroyed == w.destroyed
    requires w'.inits == w.inits || (Learns(w.inits, w'.inits) && InitsInv(w'.inits, w'.cluster.next))
    requires w'.cluster.volumes == w.cluster.volumes && w.cluster.next <= w'.cluster.next
    ensures ClaimsOnly(w, w')
  {
  }

  lemma CheckoutInvFrame(w: World, w': World, c: Uid)
    requires ClaimsOnly(w, w') && SameClaims(w, w', c) && CheckoutInv(w, c)
    ensures CheckoutInv(w', c) && Rely(w, w', c)
  {
    hide Grows;
  }

  lemma VolumesFrame(w: World, w': World)
    requires Core(w) && ClaimsOnly(w, w')
    requires forall x | x in w.taken && Anchored(w, x) && !Leaving(w, x) :: Anchored(w', x)
    ensures VolumesInv(w')
  {
    hide CheckoutInv, ClaimsInv, HistoryInv, Anchored, Final, InitsInv, Learns, CarriesOrigin;
    forall n | n in w.cluster.volumes ensures VolumeShape(w', n, w.cluster.volumes[n]) {
      VolumeShapeStable(w, w', n, w.cluster.volumes[n]);
    }
    forall x | Provisioned(x) in w.cluster.volumes
      ensures x in w'.taken ==> Taken(w', x, w'.cluster.volumes[Provisioned(x)])
      ensures x in w'.taken && !w'.cluster.volumes[Provisioned(x)].deleting ==> Anchored(w', x)
    {
    }
  }

  /** Claims changed; volumes and history did not. */
  lemma ClaimStep(w: World, w': World, actor: Option<Uid>)
    requires Core(w) && ClaimsOnly(w, w') && JobsInv(w')
    requires forall k | k in w'.cluster.claims :: ClaimShape(w', k, w'.cluster.claims[k])
    requires forall c | c in w.checkouts :: CheckoutInv(w', c) && (actor != Some(c) ==> Rely(w, w', c))
    requires forall x | x in w.taken && Anchored(w, x) && !Leaving(w, x) :: Anchored(w', x)
    ensures Harmless(w, w', actor)
  {
    hide ClaimShape, VolumesInv, CheckoutInv, Rely, InitsInv, Handed, Named, CarriesOrigin, HistoryInv, VolumeShape;
    VolumesFrame(w, w');
    ClaimsOnlyHistory(w, w');
    assert ClaimsInv(w');
  }

  lemma ClaimsOnlyHistory(w: World, w': World)
    requires HistoryInv(w) && ClaimsOnly(w, w')
    ensures HistoryInv(w') && Extends(w, w')
  {
    forall x | x in w.taken ensures Handed(w', x, w.taken[x].pool, w.taken[x].replica) {
      HandedStable(w, w', x, w.taken[x].pool, w.taken[x].replica);
    }
    hide Handed;
  }

  lemma AnchoredFrame(w: World, w': World, x: Uid)
    requires w'.checkouts == w.checkouts && w'.taken == w.taken && Anchored(w, x)
    requires SameClaims(w, w', w.taken[x].checkout)
    ensures Anchored(w', x)
  {
  }

  /** No checkout's claims changed. */
  lemma NoCheckoutClaim(w: World, w': World)
    requires Core(w) && ClaimsOnly(w, w') && JobsInv(w')
    requires forall k | k in w'.cluster.claims :: ClaimShape(w', k, w'.cluster.claims[k])
    requires forall c | c in w.checkouts :: SameClaims(w, w', c)
    ensures Harmless(w, w', None)
  {
    hide VolumesInv, CheckoutInv, Rely;
    forall c | c in w.checkouts ensures CheckoutInv(w', c) && Rely(w, w', c) {
      assert CheckoutInv(w, c);
      CheckoutInvFrame(w, w', c);
    }
    forall x | x in w.taken && Anchored(w, x) ensures Anchored(w', x) {
      AnchoredFrame(w, w', x);
    }
    ClaimStep(w, w', None);
  }

  lemma Unchanged(w: World, w': World)
    requires Core(w) && SameCore(w, w')
    ensures Harmless(w, w', None)
  {
    hide VolumeShape, Rely, VolumesInv, Harmless, ClaimShape, FinalInv, Handed, InitsInv, Engaged;
    forall k | k in w.cluster.claims ensures ClaimShape(w', k, w.cluster.claims[k]) {
      ClaimShapeStable(w, w', k, w.cluster.claims[k]);
    }
    NoCheckoutClaim(w, w');
  }

  lemma JobsOnly(w: World, w': World)
    requires Core(w) && ClaimsOnly(w, w') && w'.cluster.claims == w.cluster.claims && JobsInv(w')
    ensures Harmless(w, w', None)
  {
    hide VolumeShape, Rely, HistoryInv, VolumesInv;
    forall k | k in w.cluster.claims ensures ClaimShape(w', k, w.cluster.claims[k]) {
      ClaimShapeStable(w, w', k, w.cluster.claims[k]);
    }
    NoCheckoutClaim(w, w');
  }

  // ------------------------------------------------------------------- claims

  /** Only the claim at k differs. */
  ghost predicate OnlyAt(w: World, w': World, k: Key) {
    && (forall k' | k' in w'.cluster.claims && k' != k ::
          k' in w.cluster.claims && w'.cluster.claims[k'] == w.cluster.claims[k'])
    && (forall k' | k' in w.cluster.claims && k' != k :: k' in w'.cluster.claims)
  }

  lemma ShapesFrame(w: World, w': World, k: Key)
    requires Core(w) && ClaimsOnly(w, w') && OnlyAt(w, w', k)
    requires k in w'.cluster.claims ==> ClaimShape(w', k, w'.cluster.claims[k])
    ensures forall k | k in w'.cluster.claims :: ClaimShape(w', k, w'.cluster.claims[k])
  {
    hide VolumesInv, CheckoutInv, HistoryInv, Grows;
    forall k' | k' in w'.cluster.claims && k' != k ensures ClaimShape(w', k', w'.cluster.claims[k']) {
      ClaimShapeStable(w, w', k', w.cluster.claims[k']);
    }
  }

  /** Writing, marking or removing a claim that is no checkout's. */
  lemma ForeignClaim(w: World, w': World, k: Key)
    requires Core(w) && ClaimsOnly(w, w') && w'.cluster.jobs == w.cluster.jobs && OnlyAt(w, w', k)
    requires k in w.cluster.claims ==> !CheckoutOwned(w.cluster.claims[k])
    requires k in w'.cluster.claims ==> ClaimShape(w', k, w'.cluster.claims[k]) && !CheckoutOwned(w'.cluster.claims[k])
    ensures Harmless(w, w', None)
  {
    hide HistoryInv, VolumesInv, CheckoutInv, Harmless, ClaimShape, InitsInv, Learns, VolumeShape, Rely;
    ShapesFrame(w, w', k);
    ForeignSame(w, w', k);
    JobsFrame(w, w');
    NoCheckoutClaim(w, w');
  }

  lemma ForeignSame(w: World, w': World, k: Key)
    requires w'.checkouts == w.checkouts && OnlyAt(w, w', k)
    requires k in w.cluster.claims ==> !CheckoutOwned(w.cluster.claims[k])
    requires k in w'.cluster.claims ==> !CheckoutOwned(w'.cluster.claims[k])
    ensures forall c | c in w.checkouts :: SameClaims(w, w', c)
  {
  }

  /** Binding, losing, marking a checkout's claim: name, UID, owner and modes
      stay; a final claim only ever becomes bound, and only to its volume. */
  ghost predicate Touched(w: World, w': World, c: Uid, k: Key) {
    && c in w.checkouts
    && k in w.cluster.claims && w.cluster.claims[k].controller == Some(CheckoutOwner(c))
    && k in w'.cluster.claims
    && OnlyAt(w, w', k)
    && var o, n := w.cluster.claims[k], w'.cluster.claims[k];
    && n.uid == o.uid && n.controller == o.controller
    && n.spec.volumeName == o.spec.volumeName && n.spec.accessModes == o.spec.accessModes
    && n.spec.storageClass == o.spec.storageClass && n.spec.request == o.spec.request
    && (k == w.checkouts[c].claim ==>
          && (o.phase == Bound ==> n.phase == Bound)
          && (o.phase != Bound && n.phase == Bound ==>
                o.spec.volumeName.Some? && RefersTo(w.cluster, o.spec.volumeName.value, o.uid)))
    && (n.deleting == o.deleting || (k == w.checkouts[c].claim && !HasLocked(w, c)))
  }

  lemma OthersSame(w: World, w': World, c: Uid, k: Key, c': Uid)
    requires OnlyAt(w, w', k) && w'.checkouts == w.checkouts
    requires k in w.cluster.claims ==> w.cluster.claims[k].controller == Some(CheckoutOwner(c))
    requires k in w'.cluster.claims ==> w'.cluster.claims[k].controller == Some(CheckoutOwner(c))
    requires c' in w.checkouts && c' != c
    ensures SameClaims(w, w', c')
  {
  }

  /** Only checkout c's claim at k changed, and c's own part holds. */
  lemma OneCheckout(w: World, w': World, c: Uid, k: Key, actor: Option<Uid>)
    requires Core(w) && ClaimsOnly(w, w') && w'.cluster.jobs == w.cluster.jobs && OnlyAt(w, w', k)
    requires c in w.checkouts
    requires k in w.cluster.claims ==> w.cluster.claims[k].controller == Some(CheckoutOwner(c))
    requires k in w'.cluster.claims ==>
      w'.cluster.claims[k].controller == Some(CheckoutOwner(c)) && ClaimShape(w', k, w'.cluster.claims[k])
    requires CheckoutInv(w', c) && (actor == Some(c) || Rely(w, w', c))
    requires forall x | x in w.taken && w.taken[x].checkout == c && Anchored(w, x) && !Leaving(w, x) :: Anchored(w', x)
    ensures Harmless(w, w', actor)
  {
    hide VolumeShape, CheckoutInv, Rely, Harmless, VolumesInv, ClaimShape, Handed, OnlyAt, Anchored, HasLocked,
      HasFinal, SameClaims;
    ShapesFrame(w, w', k);
    forall c' | c' in w.checkouts && c' != c ensures CheckoutInv(w', c') && Rely(w, w', c') {
      OthersSame(w, w', c, k, c');
      assert CheckoutInv(w, c');
      CheckoutInvFrame(w, w', c');
    }
    forall x | x in w.taken && Anchored(w, x) && !Leaving(w, x) ensures Anchored(w', x) {
      if w.taken[x].checkout != c {
        OthersSame(w, w', c, k, w.taken[x].checkout);
        AnchoredFrame(w, w', x);
      }
    }
    ClaimStep(w, w', actor);
  }

  lemma TouchSelf(w: World, w': World, c: Uid, k: Key)
    requires ClaimsOnly(w, w') && Touched(w, w', c, k) && CheckoutInv(w, c)
    requires w.checkouts[c].locked != w.checkouts[c].claim
    requires k == w.checkouts[c].locked || k == w.checkouts[c].claim
    ensures CheckoutInv(w', c) && Rely(w, w', c)
  {
    hide Rely, CheckoutInv, Grows, InitsInv;
    TouchRely(w, w', c, k);
    if k == w.checkouts[c].locked {
      TouchLocked(w, w', c, k);
    } else {
      TouchFinal(w, w', c, k);
    }
  }

  lemma TouchLocked(w: World, w': World, c: Uid, k: Key)
    requires ClaimsOnly(w, w') && Touched(w, w', c, k) && CheckoutInv(w, c)
    requires w.checkouts[c].locked == k != w.checkouts[c].claim
    ensures CheckoutInv(w', c)
  {
    hide Learns, InitsInv;
    assert HasFinal(w', c) == HasFinal(w, c);
  }

  lemma TouchFinal(w: World, w': World, c: Uid, k: Key)
    requires ClaimsOnly(w, w') && Touched(w, w', c, k) && CheckoutInv(w, c)
    requires w.checkouts[c].claim == k != w.checkouts[c].locked
    ensures CheckoutInv(w', c)
  {
    hide Learns, InitsInv;
    assert HasLocked(w', c) == HasLocked(w, c);
  }

  lemma TouchRely(w: World, w': World, c: Uid, k: Key)
    requires ClaimsOnly(w, w') && Touched(w, w', c, k) && CheckoutInv(w, c)
    requires w.checkouts[c].locked != w.checkouts[c].claim
    requires k == w.checkouts[c].locked || k == w.checkouts[c].claim
    ensures Rely(w, w', c)
  {
    hide InitsInv, Learns;
  }

  lemma TouchOwned(w: World, w': World, c: Uid, k: Key)
    requires Core(w) && ClaimsOnly(w, w') && w'.cluster.jobs == w.cluster.jobs && Touched(w, w', c, k)
    ensures Harmless(w, w', None)
  {
    hide VolumesInv, HasLocked, FinalInv;
    assert ClaimShape(w, k, w.cluster.claims[k]);
    assert CheckoutInv(w, c);
    TouchSelf(w, w', c, k);
    OneCheckout(w, w', c, k, None);
  }

  /** A marked claim of a checkout goes away. */
  lemma FinalizeOwned(w: World, w': World, c: Uid, k: Key)
    requires Core(w) && ClaimsOnly(w, w') && w'.cluster.jobs == w.cluster.jobs && c in w.checkouts
    requires k in w.cluster.claims && w.cluster.claims[k].controller == Some(CheckoutOwner(c))
    requires w.cluster.claims[k].deleting
    requires w'.cluster.claims == w.cluster.claims - {k}
    ensures Harmless(w, w', None)
  {
    hide Harmless, VolumesInv, CheckoutInv, Rely, Extends, VolumeShape, Grows;
    assert ClaimShape(w, k, w.cluster.claims[k]);
    assert CheckoutInv(w, c);
    FinalizeSelf(w, w', c, k);
    OneCheckout(w, w', c, k, None);
  }

  lemma FinalizeSelf(w: World, w': World, c: Uid, k: Key)
    requires ClaimsOnly(w, w') && CheckoutInv(w, c) && c in w.checkouts
    requires w.checkouts[c].locked != w.checkouts[c].claim
    requires k == w.checkouts[c].locked || k == w.checkouts[c].claim
    requires k in w.cluster.claims && w.cluster.claims[k].controller == Some(CheckoutOwner(c))
    requires w.cluster.claims[k].deleting
    requires w'.cluster.claims == w.cluster.claims - {k}
    ensures CheckoutInv(w', c) && Rely(w, w', c)
    ensures forall x | x in w.taken && w.taken[x].checkout == c && Anchored(w, x) && !Leaving(w, x) :: Anchored(w', x)
  {
  }

  /** A claim changes status or mark. */
  lemma StatusStep(w: World, w': World, k: Key)
    requires Core(w) && ClaimsOnly(w, w') && SameHistory(w, w') && w'.cluster.jobs == w.cluster.jobs
    requires k in w.cluster.claims && k in w'.cluster.claims && OnlyAt(w, w', k)
    requires var o, n := w.cluster.claims[k], w'.cluster.claims[k];
      && n.uid == o.uid && n.controller == o.controller && n.annotations == o.annotations
      && (CheckoutOwned(o) ==> Touched(w, w', o.controller.value.uid, k))
    ensures Harmless(w, w', None)
  {
    hide CheckoutInv, VolumeShape, HistoryInv, Rely;
    assert ClaimShape(w, k, w.cluster.claims[k]);
    if CheckoutOwned(w.cluster.claims[k]) {
      TouchOwned(w, w', w.cluster.claims[k].controller.value.uid, k);
    } else {
      ForeignClaim(w, w', k);
    }
  }

  /** The final claim of a checkout that is bound has its volume. */
  lemma FinalHasVolume(w: World, k: Key)
    requires Core(w) && k in w.cluster.claims && CheckoutOwned(w.cluster.claims[k])
    ensures var c := w.cluster.claims[k].controller.value.uid;
      && c in w.checkouts
      && (k == w.checkouts[c].locked || k == w.checkouts[c].claim)
      && w.cluster.claims[k].spec.volumeName.Some?
      && (k == w.checkouts[c].claim && w.cluster.claims[k].phase == Bound ==>
            RefersTo(w.cluster, w.cluster.claims[k].spec.volumeName.value, w.cluster.claims[k].uid))
  {
    hide VolumesInv, HistoryInv;
    assert ClaimShape(w, k, w.cluster.claims[k]);
    assert CheckoutInv(w, w.cluster.claims[k].controller.value.uid);
  }

  lemma BindSafe(w: World, k: Key, v: VolumeName)
    requires Core(w)
    ensures Harmless(w, StepBind(w, k, v), None)
  {
    hide HistoryInv, ClaimsInv, VolumesInv, CheckoutInv, Extends, Rely, VolumeShape, Grows;
    var w' := StepBind(w, k, v);
    if !MayBind(w.cluster, k, v) {
      Unchanged(w, w);
    } else {
      if CheckoutOwned(w.cluster.claims[k]) {
        FinalHasVolume(w, k);
      }
      PlainStep(w, w');
      hide Core, Harmless;
      StatusStep(w, w', k);
    }
  }

  lemma MarkLostSafe(w: World, k: Key)
    requires Core(w)
    ensures Harmless(w, StepMarkLost(w, k), None)
  {
    hide VolumeShape, Rely, Grows, VolumesInv, Harmless, FinalInv, Handed, Learns, InitsInv, ClaimsOnly, HasFinal,
      Engaged, RefersTo, CheckoutInv, HandoffInvariant.Named, Readied;
    var w' := StepMarkLost(w, k);
    if !MayLose(w.cluster, k) {
      Unchanged(w, w);
    } else {
      if CheckoutOwned(w.cluster.claims[k]) {
        FinalHasVolume(w, k);
      }
      PlainStep(w, w');
      hide Core;
      StatusStep(w, w', k);
    }
  }

  lemma RemoveClaimSafe(w: World, k: Key)
    requires Core(w)
    ensures Harmless(w, StepRemoveClaim(w, k), None)
  {
    hide HistoryInv, ClaimsInv, VolumesInv, CheckoutInv, Harmless, VolumeShape, Rely, Grows;
    var w' := StepRemoveClaim(w, k);
    if !MayRemove(w, k) {
      Unchanged(w, w);
    } else {
      PlainStep(w, w');
      StatusStep(w, w', k);
    }
  }

  lemma FinalizeClaimSafe(w: World, k: Key)
    requires Core(w)
    ensures Harmless(w, StepFinalizeClaim(w, k), None)
  {
    hide HistoryInv, VolumesInv, CheckoutInv, Harmless, ClaimShape, VolumeShape, Rely, Grows;
    var w' := StepFinalizeClaim(w, k);
    if k !in w.cluster.claims || !w.cluster.claims[k].deleting {
      Unchanged(w, w);
    } else {
      PlainStep(w, w');
      if CheckoutOwned(w.cluster.claims[k]) {
        FinalHasVolume(w, k);
        FinalizeOwned(w, w', w.cluster.claims[k].controller.value.uid, k);
      } else {
        ForeignClaim(w, w', k);
      }
    }
  }

  lemma CreateClaimSafe(w: World, k: Key, c: Claim)
    requires Core(w)
    ensures Harmless(w, StepCreateClaim(w, k, c), None)
  {
    hide HistoryInv, ClaimsInv, VolumesInv, CheckoutInv, Harmless, ClaimShape, InitsInv, Learns, Marked,
      VolumeShape, Rely, Grows;
    var w' := StepCreateClaim(w, k, c);
    if !MayCreate(w.cluster, k, c) {
      Unchanged(w, w);
    } else {
      CreatedShape(w, k, c);
      PlainStep(w, w');
      ForeignClaim(w, w', k);
    }
  }

  lemma CreatedShape(w: World, k: Key, c: Claim)
    requires HistoryInv(w) && MayCreate(w.cluster, k, c)
    ensures var w' := StepCreateClaim(w, k, c);
      && Learns(w.inits, w'.inits) && InitsInv(w'.inits, w'.cluster.next)
      && ClaimShape(w', k, w'.cluster.claims[k]) && !CheckoutOwned(w'.cluster.claims[k])
  {
    hide Handed, Readied;
  }

  lemma EditClaimSafe(w: World, k: Key, c: Claim)
    requires Core(w)
    ensures Harmless(w, StepEditClaim(w, k, c), None)
  {
    hide Harmless, VolumesInv, CheckoutInv, Handed, Named, Readied, InitsInv, Learns, VolumeShape, Rely, Grows;
    var w' := StepEditClaim(w, k, c);
    if !MayEdit(w.cluster, k, c) {
      Unchanged(w, w);
    } else {
      assert ClaimShape(w, k, w.cluster.claims[k]);
      PlainStep(w, w');
      ForeignClaim(w, w', k);
    }
  }

  // ------------------------------------------------------------------ volumes

  /** Volumes changed; claims did not. */
  ghost predicate VolumesOnly(w: World, w': World) {
    && Grows(w, w')
    && w'.owned == w.owned && w'.inits == w.inits
    && w'.cluster.claims == w.cluster.claims
    && w'.cluster.jobs == w.cluster.jobs
  }

  lemma HistoryFrame(w: World, w': World)
    requires HistoryInv(w) && SameHistory(w, w') && w'.inits == w.inits && w'.destroyed == w.destroyed
    requires w.cluster.next <= w'.cluster.next
    ensures HistoryInv(w') && Grows(w, w')
  {
    hide Grows, Handed, InitsInv, HandoffInvariant.Named;
    SameGrows(w, w');
    InitsLater(w.inits, w.cluster.next, w'.cluster.next);
    forall x | x in w.taken ensures Handed(w', x, w.taken[x].pool, w.taken[x].replica) {
      HandedStable(w, w', x, w.taken[x].pool, w.taken[x].replica);
    }
  }

  lemma SameGrows(w: World, w': World)
    requires SameHistory(w, w') && w'.inits == w.inits && w.cluster.next <= w'.cluster.next
    ensures Grows(w, w')
  {
  }

  lemma VolumeStep(w: World, w': World, actor: Option<Uid>)
    requires Core(w) && VolumesOnly(w, w') && Extends(w, w') && HistoryInv(w') && VolumesInv(w')
    requires forall x | x in w'.taken && x !in w.taken :: actor == Some(w'.taken[x].checkout)
    requires forall c | c in w.checkouts :: CheckoutInv(w', c)
    ensures Harmless(w, w', actor)
  {
    hide HistoryInv, VolumesInv, CheckoutInv, Extends, Grows, Rely;
    forall k | k in w.cluster.claims ensures ClaimShape(w', k, w.cluster.claims[k]) {
      ClaimShapeStable(w, w', k, w.cluster.claims[k]);
    }
    GrowsFacts(w, w');
    assert ClaimsInv(w');
    hide ClaimShape, ClaimsInv;
    forall c | c in w.checkouts && actor != Some(c) ensures Rely(w, w', c) {
      RelySame(w, w', c);
    }
  }

  lemma GrowsFacts(w: World, w': World)
    requires Grows(w, w')
    ensures w.cluster.next <= w'.cluster.next && w'.checkouts == w.checkouts && Learns(w.inits, w'.inits)
  {
  }

  lemma RelySame(w: World, w': World, c: Uid)
    requires w'.checkouts == w.checkouts && w'.cluster.claims == w.cluster.claims
    requires forall x | x in w'.taken && x !in w.taken :: w'.taken[x].checkout != c
    ensures Rely(w, w', c)
  {
  }

  lemma ProvisionSafe(w: World, k: Key, spec: VolumeSpec, labels: LabelMap, annotations: LabelMap)
    requires Core(w)
    ensures Harmless(w, StepProvision(w, k, spec, labels, annotations), None)
  {
    hide Harmless, Handed, Named, InitsInv, Learns, VolumeShape, ClaimShape, CheckoutInv, Rely, Grows;
    var w' := StepProvision(w, k, spec, labels, annotations);
    if !MayProvision(w.cluster, k, annotations) {
      Unchanged(w, w);
    } else {
      var u := w.cluster.next;
      ProvisionFresh(w);
      ProvisionHistory(w, k, spec, labels, annotations);
      ProvisionVolumes(w, w', u);
      forall c | c in w.checkouts ensures CheckoutInv(w', c) {
        assert CheckoutInv(w, c);
        VolumeAdded(w, w', Provisioned(u), c);
      }
      hide Core, HistoryInv, VolumesInv, Extends;
      VolumeStep(w, w', None);
    }
  }

  lemma ProvisionFresh(w: World)
    requires HistoryInv(w) && VolumesInv(w)
    ensures Provisioned(w.cluster.next) !in w.cluster.volumes
    ensures w.cluster.next !in w.origin && w.cluster.next !in w.taken && w.cluster.next !in w.destroyed
  {
    var n := Provisioned(w.cluster.next);
    assert n in w.cluster.volumes ==> VolumeShape(w, n, w.cluster.volumes[n]);
  }

  lemma ProvisionGrows(w: World, k: Key, spec: VolumeSpec, labels: LabelMap, annotations: LabelMap)
    requires HistoryInv(w) && MayProvision(w.cluster, k, annotations) && ClaimShape(w, k, w.cluster.claims[k])
    requires w.cluster.next !in w.origin
    ensures var w' := StepProvision(w, k, spec, labels, annotations);
      && HistoryInv(w') && VolumesOnly(w, w')
      && VolumeShape(w', Provisioned(w.cluster.next), w'.cluster.volumes[Provisioned(w.cluster.next)])
  {
    hide VolumeShape, Handed, Grows, InitsInv, HandoffInvariant.Named;
    var w' := StepProvision(w, k, spec, labels, annotations);
    ProvisionShape(w, k, spec, labels, annotations);
    ProvisionInits(w, k);
    forall x | x in w.taken ensures Handed(w', x, w.taken[x].pool, w.taken[x].replica) {
      HandedStable(w, w', x, w.taken[x].pool, w.taken[x].replica);
    }
  }

  lemma ProvisionInits(w: World, k: Key)
    requires HistoryInv(w) && k in w.cluster.claims && ClaimShape(w, k, w.cluster.claims[k])
    requires !CheckoutOwned(w.cluster.claims[k])
    ensures InitsInv(w.inits, w.cluster.next + 1) && Named(w.inits, k, w.cluster.claims[k].uid)
  {
    hide Handed;
    InitsLater(w.inits, w.cluster.next, w.cluster.next + 1);
  }

  lemma ProvisionShape(w: World, k: Key, spec: VolumeSpec, labels: LabelMap, annotations: LabelMap)
    requires HistoryInv(w) && MayProvision(w.cluster, k, annotations) && w.cluster.next !in w.origin
    ensures var w' := StepProvision(w, k, spec, labels, annotations);
      && Grows(w, w')
      && VolumeShape(w', Provisioned(w.cluster.next), w'.cluster.volumes[Provisioned(w.cluster.next)])
  {
    hide Handed, Named, InitsInv;
  }

  lemma ProvisionHistory(w: World, k: Key, spec: VolumeSpec, labels: LabelMap, annotations: LabelMap)
    requires HistoryInv(w) && ClaimsInv(w) && MayProvision(w.cluster, k, annotations)
    requires w.cluster.next !in w.origin && Provisioned(w.cluster.next) !in w.cluster.volumes
    ensures var w' := StepProvision(w, k, spec, labels, annotations);
      && HistoryInv(w') && VolumesOnly(w, w') && Extends(w, w')
      && VolumeShape(w', Provisioned(w.cluster.next), w'.cluster.volumes[Provisioned(w.cluster.next)])
  {
    hide HistoryInv, VolumeShape, Grows, InitsInv, Named, ClaimShape;
    assert ClaimShape(w, k, w.cluster.claims[k]);
    ProvisionGrows(w, k, spec, labels, annotations);
  }

  lemma ProvisionVolumes(w: World, w': World, u: Uid)
    requires VolumesInv(w) && Grows(w, w')
    requires w'.destroyed == w.destroyed && w'.taken == w.taken && w'.cluster.claims == w.cluster.claims
    requires Provisioned(u) in w'.cluster.volumes
    requires w'.cluster.volumes == w.cluster.volumes[Provisioned(u) := w'.cluster.volumes[Provisioned(u)]]
    requires VolumeShape(w', Provisioned(u), w'.cluster.volumes[Provisioned(u)])
    requires u !in w.taken && u !in w.destroyed && Provisioned(u) !in w.cluster.volumes
    ensures VolumesInv(w')
  {
    hide Final, Learns, VolumeShape, CarriesOrigin, Untaken;
    forall n | n in w.cluster.volumes ensures VolumeShape(w', n, w.cluster.volumes[n]) {
      VolumeShapeStable(w, w', n, w.cluster.volumes[n]);
    }
    forall x | Provisioned(x) in w'.cluster.volumes && x in w.taken
      ensures Taken(w', x, w'.cluster.volumes[Provisioned(x)])
      ensures !w'.cluster.volumes[Provisioned(x)].deleting ==> Anchored(w', x)
    {
      assert Provisioned(x) in w.cluster.volumes;
    }
  }

  /** A fresh pool volume is nothing to any checkout. */
  lemma VolumeAdded(w: World, w': World, n: VolumeName, c: Uid)
    requires CheckoutInv(w, c) && c in w.checkouts && w.cluster.next !in w.taken
    requires Grows(w, w') && w'.taken == w.taken && w'.destroyed == w.destroyed
    requires w'.cluster.claims == w.cluster.claims
    requires n == Provisioned(w.cluster.next) && n !in w.cluster.volumes
    requires forall n' | n' != n :: n' in w'.cluster.volumes <==> n' in w.cluster.volumes
    requires forall n' | n' in w.cluster.volumes :: n' in w'.cluster.volumes && w'.cluster.volumes[n'] == w.cluster.volumes[n']
    ensures CheckoutInv(w', c)
  {
    hide Learns;
  }

  /** Neither the locked nor the final claim of c depends on storage x. */
  ghost predicate Uninvolved(w: World, c: Uid, x: Uid) {
    && !Engaged(w, c, x)
    && !(HasFinal(w, c) && FinalClaim(w, c).spec.volumeName == Some(Derived(x)))
  }

  /** No checkout depends on storage whose volume may be reclaimed. */
  lemma ReclaimedUninvolved(w: World, n: VolumeName, c: Uid)
    requires Core(w) && n in w.cluster.volumes && c in w.checkouts
    requires Destructive(w.cluster.volumes[n].spec.reclaimPolicy)
    requires w.cluster.volumes[n].spec.claimRef.Some?
    requires !LiveUid(w.cluster, w.cluster.volumes[n].spec.claimRef.value.uid)
    ensures Uninvolved(w, c, w.cluster.volumes[n].spec.handle)
  {
    hide ClaimsInv, Handed, InitsInv, Anchored, HasLocked, Untaken, Final;
    var x := w.cluster.volumes[n].spec.handle;
    assert VolumeShape(w, n, w.cluster.volumes[n]);
    assert CheckoutInv(w, c);
    if n.Derived? && HasFinal(w, c) {
      assert LiveUid(w.cluster, FinalClaim(w, c).uid);
    }
  }

  /** The volume `n` goes away; its storage `x` with it, or not. */
  ghost predicate Dropping(w: World, w': World, n: VolumeName) {
    && SameHistory(w, w') && w'.inits == w.inits
    && n in w.cluster.volumes
    && w'.cluster == w.cluster.(volumes := w.cluster.volumes - {n})
  }

  lemma UninvolvedKept(w: World, w': World, n: VolumeName, c: Uid, x: Uid)
    requires Dropping(w, w', n) && CheckoutInv(w, c) && c in w.checkouts
    requires w'.destroyed == w.destroyed + {x}
    requires n == Provisioned(x) || n == Derived(x)
    requires Uninvolved(w, c, x)
    ensures CheckoutInv(w', c)
  {
  }

  lemma LeavingKept(w: World, w': World, x: Uid, c: Uid)
    requires Dropping(w, w', Provisioned(x)) && CheckoutInv(w, c) && c in w.checkouts
    requires w'.destroyed == w.destroyed
    requires w.cluster.volumes[Provisioned(x)].deleting
    ensures CheckoutInv(w', c)
  {
  }

  lemma DroppedExtends(w: World, w': World, n: VolumeName)
    requires HistoryInv(w) && Dropping(w, w', n) && w.cluster.volumes[n].spec.handle < w.cluster.next
    requires w'.destroyed == w.destroyed || w'.destroyed == w.destroyed + {w.cluster.volumes[n].spec.handle}
    ensures HistoryInv(w') && Extends(w, w')
  {
    hide Grows, Handed, HandoffInvariant.Named, InitsInv;
    SameGrows(w, w');
    forall x | x in w.taken ensures Handed(w', x, w.taken[x].pool, w.taken[x].replica) {
      HandedStable(w, w', x, w.taken[x].pool, w.taken[x].replica);
    }
  }

  lemma DroppedVolume(w: World, w': World, n: VolumeName, x: Uid)
    requires VolumesInv(w) && Dropping(w, w', n)
    requires w'.destroyed == w.destroyed || w'.destroyed == w.destroyed + {w.cluster.volumes[n].spec.handle}
    requires Provisioned(x) in w'.cluster.volumes
    ensures x in w'.taken ==> Taken(w', x, w'.cluster.volumes[Provisioned(x)])
    ensures x !in w'.taken ==> x !in w'.destroyed
    ensures x in w'.taken && !w'.cluster.volumes[Provisioned(x)].deleting ==> Anchored(w', x)
  {
    assert VolumeShape(w, n, w.cluster.volumes[n]);
    assert Provisioned(x) in w.cluster.volumes;
    if x in w.taken && !w.cluster.volumes[Provisioned(x)].deleting {
      assert Anchored(w, x);
    }
  }

  lemma DroppedVolumes(w: World, w': World, n: VolumeName)
    requires HistoryInv(w) && VolumesInv(w) && Dropping(w, w', n)
    requires w'.destroyed == w.destroyed || w'.destroyed == w.destroyed + {w.cluster.volumes[n].spec.handle}
    ensures VolumesInv(w') && HistoryInv(w') && Extends(w, w')
  {
    hide HistoryInv, VolumesInv, Grows;
    ShapeHandle(w, n);
    DroppedExtends(w, w', n);
    DroppedShapes(w, w', n);
  }

  lemma ShapeHandle(w: World, n: VolumeName)
    requires VolumesInv(w) && HistoryInv(w) && n in w.cluster.volumes
    ensures w.cluster.volumes[n].spec.handle < w.cluster.next
  {
    hide Handed, HandoffInvariant.Named, InitsInv, Taken, Anchored;
    assert VolumeShape(w, n, w.cluster.volumes[n]);
  }

  lemma DroppedShapes(w: World, w': World, n: VolumeName)
    requires VolumesInv(w) && Dropping(w, w', n) && Grows(w, w')
    requires w'.destroyed == w.destroyed || w'.destroyed == w.destroyed + {w.cluster.volumes[n].spec.handle}
    ensures VolumesInv(w')
  {
    hide Grows, VolumeShape, Taken, Anchored;
    forall n' | n' in w'.cluster.volumes ensures VolumeShape(w', n', w.cluster.volumes[n']) {
      VolumeShapeStable(w, w', n', w.cluster.volumes[n']);
    }
    forall x | Provisioned(x) in w'.cluster.volumes
      ensures x in w'.taken ==> Taken(w', x, w'.cluster.volumes[Provisioned(x)])
      ensures x !in w'.taken ==> x !in w'.destroyed
      ensures x in w'.taken && !w'.cluster.volumes[Provisioned(x)].deleting ==> Anchored(w', x)
    {
      DroppedVolume(w, w', n, x);
    }
  }

  lemma ReclaimSafe(w: World, n: VolumeName)
    requires Core(w)
    ensures Harmless(w, StepReclaim(w, n), None)
  {
    hide HistoryInv, Grows, CheckoutInv, Rely, ClaimsInv;
    var w' := StepReclaim(w, n);
    if !MayReclaim(w.cluster, n) {
      Unchanged(w, w);
    } else {
      var x := w.cluster.volumes[n].spec.handle;
      assert VolumeShape(w, n, w.cluster.volumes[n]);
      forall c | c in w.checkouts ensures CheckoutInv(w', c) {
        assert CheckoutInv(w, c);
        ReclaimedUninvolved(w, n, c);
        UninvolvedKept(w, w', n, c, x);
      }
      DroppedVolumes(w, w', n);
      VolumeStep(w, w', None);
    }
  }

  lemma FinalizeVolumeSafe(w: World, n: VolumeName)
    requires Core(w)
    ensures Harmless(w, StepFinalizeVolume(w, n), None)
  {
    hide HistoryInv, Grows, CheckoutInv, Rely, ClaimsInv;
    var w' := StepFinalizeVolume(w, n);
    if n !in w.cluster.volumes || !w.cluster.volumes[n].deleting {
      Unchanged(w, w);
    } else {
      assert VolumeShape(w, n, w.cluster.volumes[n]);
      forall c | c in w.checkouts ensures CheckoutInv(w', c) {
        assert CheckoutInv(w, c);
        LeavingKept(w, w', n.id, c);
      }
      DroppedVolumes(w, w', n);
      VolumeStep(w, w', None);
    }
  }

  // ----------------------------------------------------------- pool controllers

  /** Noting a claim, and that it borrowed a job, when it did. */
  lemma NoteLearns(i: Inits, i': Inits, k: Key, u: Uid, owner: Uid, borrows: bool, next: nat, next': nat)
    requires InitsInv(i, next) && next <= next' && 0 < u < next' && (u in i.named ==> i.named[u] == k)
    requires borrows ==> owner != u && Ran(i, k, owner)
    requires var n := i.(named := i.named[u := k]);
      i' == if borrows && u !in i.borrowed then n.(borrowed := n.borrowed[u := owner]) else n
    ensures Learns(i, i') && InitsInv(i', next') && Named(i', k, u)
    ensures borrows || Readied(i, k, u) || (owner == u && Ran(i, k, owner)) ==> Readied(i', k, u)
  {
  }

  /** What a replica's write notes about initialization is true. */
  lemma NotedSound(w: World, p: ReplicaProc, s': Cluster, c: Claim)
    requires HistoryInv(w) && ClaimsInv(w) && ReplicaInv(w, p) && p.pc == PersistClaim
    requires ServePutClaim(w.cluster, p.mem.key, p.mem.claim) == (s', StoredClaim(c))
    ensures var i := Noted(w, p, StoredClaim(c));
      && Learns(w.inits, i) && InitsInv(i, s'.next)
      && Named(i, p.mem.key, c.uid) && (Marked(c.annotations) ==> Readied(i, p.mem.key, c.uid))
  {
    hide Snapshot, Handed, InitsInv, Learns, Readied, ClaimsInv, ServePutClaim;
    var k := p.mem.key;
    PutUid(w.cluster, k, p.mem.claim);
    PutKnown(w, p, c);
    var borrows := Marked(c.annotations) && !MarkedAt(w.cluster, k) && p.mem.job.outcome == Succeeded && p.mem.job.owner != c.uid;
    NoteLearns(w.inits, Noted(w, p, StoredClaim(c)), k, c.uid, p.mem.job.owner, borrows, w.cluster.next, s'.next);
  }

  lemma PutUid(s: Cluster, k: Key, o: Claim)
    ensures var (s', r) := ServePutClaim(s, k, o);
      && s.next <= s'.next
      && (r.StoredClaim? ==>
            && r.claim.annotations == o.annotations && r.claim.controller == o.controller
            && (o.uid == 0 ==> k !in s.claims && r.claim.uid == s.next < s'.next)
            && (o.uid != 0 ==> k in s.claims && s.claims[k].uid == o.uid == r.claim.uid))
  {
  }

  lemma PutKnown(w: World, p: ReplicaProc, c: Claim)
    requires HistoryInv(w) && ClaimsInv(w) && ReplicaInv(w, p) && p.pc == PersistClaim
    requires c.annotations == p.mem.claim.annotations
    requires p.mem.claim.uid == 0 ==> p.mem.key !in w.cluster.claims && c.uid == w.cluster.next
    requires p.mem.claim.uid != 0 ==>
      p.mem.key in w.cluster.claims && w.cluster.claims[p.mem.key].uid == p.mem.claim.uid == c.uid
    ensures 0 < c.uid && (c.uid in w.inits.named ==> w.inits.named[c.uid] == p.mem.key)
    ensures p.mem.job.outcome == Succeeded ==> Ran(w.inits, p.mem.key, p.mem.job.owner)
    ensures Marked(c.annotations) ==> Readied(w.inits, p.mem.key, c.uid) || p.mem.job.outcome == Succeeded
    ensures MarkedAt(w.cluster, p.mem.key) ==> Readied(w.inits, p.mem.key, c.uid)
  {
    hide Snapshot, Handed, Readied, Ran;
    if p.mem.key in w.cluster.claims {
      assert ClaimShape(w, p.mem.key, w.cluster.claims[p.mem.key]);
    }
  }

  lemma ReplicaPutSafe(w: World, w': World, p: ReplicaProc)
    requires Core(w) && ReplicaInv(w, p) && p.pc == PersistClaim
    requires SameHistory(w, w') && w'.destroyed == w.destroyed
    requires w'.cluster == ServePutClaim(w.cluster, p.mem.key, p.mem.claim).0
    requires w'.inits == Noted(w, p, ServePutClaim(w.cluster, p.mem.key, p.mem.claim).1)
    ensures Harmless(w, w', None)
  {
    hide HistoryInv, ClaimsInv, VolumesInv, CheckoutInv, Harmless, ReplicaInv, Noted, ClaimShape, InitsInv, Learns,
      VolumeShape, Rely, Grows;
    var (s', r) := ServePutClaim(w.cluster, p.mem.key, p.mem.claim);
    if r.StoredClaim? {
      NotedSound(w, p, s', r.claim);
      PlainStep(w, w');
      ReplicaPutShape(w, w', p, r.claim);
      hide ServePutClaim;
      ForeignClaim(w, w', p.mem.key);
    } else {
      PutRefused(w, p);
      Unchanged(w, w');
    }
  }

  lemma PutRefused(w: World, p: ReplicaProc)
    requires p.pc == PersistClaim && !ServePutClaim(w.cluster, p.mem.key, p.mem.claim).1.StoredClaim?
    ensures ServePutClaim(w.cluster, p.mem.key, p.mem.claim).0 == w.cluster
    ensures Noted(w, p, ServePutClaim(w.cluster, p.mem.key, p.mem.claim).1) == w.inits
  {
  }

  lemma ReplicaPutShape(w: World, w': World, p: ReplicaProc, c: Claim)
    requires HistoryInv(w) && ClaimsInv(w) && ReplicaInv(w, p) && p.pc == PersistClaim
    requires SameHistory(w, w')
    requires ServePutClaim(w.cluster, p.mem.key, p.mem.claim) == (w'.cluster, StoredClaim(c))
    requires Named(w'.inits, p.mem.key, c.uid) && (Marked(c.annotations) ==> Readied(w'.inits, p.mem.key, c.uid))
    ensures OnlyAt(w, w', p.mem.key) && p.mem.key in w'.cluster.claims && w'.cluster.jobs == w.cluster.jobs
    ensures w'.cluster.volumes == w.cluster.volumes && w.cluster.next <= w'.cluster.next
    ensures p.mem.key in w.cluster.claims ==> !CheckoutOwned(w.cluster.claims[p.mem.key])
    ensures ClaimShape(w', p.mem.key, w'.cluster.claims[p.mem.key]) && !CheckoutOwned(w'.cluster.claims[p.mem.key])
  {
    hide Readied, Named, Ran, Handed, InitsInv, Snapshot, MarkedSoundly;
    PutUid(w.cluster, p.mem.key, p.mem.claim);
    PutElsewhere(w.cluster, p.mem.key, p.mem.claim);
    hide ServePutClaim;
    if p.mem.key in w.cluster.claims {
      assert ClaimShape(w, p.mem.key, w.cluster.claims[p.mem.key]);
    }
  }

  lemma PutElsewhere(s: Cluster, k: Key, o: Claim)
    ensures var (s', r) := ServePutClaim(s, k, o);
      && s'.jobs == s.jobs && s'.volumes == s.volumes
      && (r.StoredClaim? ==> k in s'.claims && s'.claims[k] == r.claim && s'.claims == s.claims[k := r.claim])
  {
  }

  lemma ReplicaDropSafe(w: World, w': World, r: Replica)
    requires Core(w) && ReplicaFacts(w, r) && r.claim.uid != 0 && !CheckoutOwned(r.claim)
    requires SameHistory(w, w') && w'.inits == w.inits && w'.destroyed == w.destroyed
    requires w'.cluster == ServeDropClaim(w.cluster, r.key, r.claim.uid).0
    ensures Harmless(w, w', None)
  {
    hide CheckoutInv, VolumeShape, HistoryInv, Rely, Grows, VolumesInv, Harmless, Handed, Learns, InitsInv,
      ClaimsOnly, Snapshot;
    if w'.cluster == w.cluster {
      Unchanged(w, w');
    } else {
      assert ClaimShape(w, r.key, w.cluster.claims[r.key]);
      PlainStep(w, w');
      hide Core;
      ForeignClaim(w, w', r.key);
    }
  }

  lemma ReplicaJobEffect(s: Cluster, req: Request)
    requires req.PutJob? || req.DropJob? || req.GetJob? || req.GetClaim? || req.GetVolume?
    ensures var s' := Serve(s, req, []).0;
      && s'.claims == s.claims && s'.volumes == s.volumes && s.next <= s'.next
      && forall k | k in s'.jobs ::
           || (k in s.jobs && s'.jobs[k] == s.jobs[k])
           || (req.PutJob? && k == req.key && s'.jobs[k].outcome == Running && s'.jobs[k].uid == s.next < s'.next
               && s'.jobs[k].owner == req.job.owner)
  {
    hide ServePutClaim;
  }

  lemma ReplicaJobSafe(w: World, w': World, req: Request)
    requires Core(w) && SameHistory(w, w') && w'.inits == w.inits && w'.destroyed == w.destroyed
    requires req.PutJob? || req.DropJob? || req.GetJob? || req.GetClaim? || req.GetVolume?
    requires req.PutJob? ==> Named(w.inits, req.key, req.job.owner)
    requires w'.cluster == Serve(w.cluster, req, []).0
    ensures Harmless(w, w', None)
  {
    hide Harmless, Serve, VolumesInv, CheckoutInv, Named, InitsInv, Learns, Handed, VolumeShape, Rely, ClaimShape,
      Grows;
    ReplicaJobEffect(w.cluster, req);
    PlainStep(w, w');
    assert JobsInv(w');
    JobsOnly(w, w');
  }

  /** What a replica's call other than writing or deleting its claim is. */
  lemma ReplicaJobRequest(w: World, p: ReplicaProc)
    requires ReplicaInv(w, p) && NextReplicaCall(p).Some? && !p.pc.PersistClaim? && !p.pc.DeleteClaim?
    ensures var req := NextReplicaCall(p).value;
      && (req.PutJob? || req.DropJob? || req.GetJob? || req.GetClaim? || req.GetVolume?)
      && (req.PutJob? ==> Named(w.inits, req.key, req.job.owner))
    ensures forall r :: Noted(w, p, r) == w.inits
  {
    hide Named, Readied, Handed, Snapshot, Ran;
  }

  /** One API call for a replica, seen from the handoff. */
  lemma ReplicaCallSafe(w: World, id: nat, fault: Option<ApiError>)
    requires Core(w) && id in w.replicas && ReplicaInv(w, w.replicas[id])
    ensures Harmless(w, StepAdvanceReplica(w, id, fault), None)
  {
    hide HistoryInv, VolumesInv, CheckoutInv, ClaimsInv, Harmless, ReplicaFacts, Extends, ResumeReplica,
      VolumeShape, Rely, ServePutClaim;
    var w' := StepAdvanceReplica(w, id, fault);
    var p := w.replicas[id];
    if fault.Some? || NextReplicaCall(p).None? {
      Unchanged(w, w');
    } else if p.pc.PersistClaim? {
      hide Noted, ReplicaInv;
      ReplicaPutSafe(w, w', p);
    } else if p.pc.DeleteClaim? {
      ReplicaDropSafe(w, w', p.mem);
    } else {
      ReplicaJobRequest(w, p);
      hide Noted;
      ReplicaJobSafe(w, w', NextReplicaCall(p).value);
    }
  }
}
