/** Progress: left alone, a checkout whose names are free takes a volume that is on
    offer and gets its claim bound; wherever a crash struck after that, one reconcile
    finishes the handoff; and another one cleans up. */
module Recovery {
  import opened Kube
  import opened Replica
  import opened Checkouts
  import opened World
  import opened HandoffInvariant
  import opened HandoffSteps
  import opened HandoffRuns
  import opened HandoffTheorems
  import opened Selection
  import opened Undisturbed

  // ------------------------------------------------ final claims are never lost

  ghost predicate NeverLost(w: World) {
    forall c | HasFinal(w, c) :: FinalClaim(w, c).phase == Pending || FinalClaim(w, c).phase == Bound
  }

  lemma StepNeverLost(w: World, e: Event)
    requires Inv(w) && NeverLost(w)
    ensures NeverLost(Step(w, e))
  {
    hide Step, ProcInv, ReplicaInv, VolumeShape, Rely, VolumesInv, FinalInv, Handed, Learns, InitsInv, HasLocked,
      Engaged, RefersTo, Readied, Actor, HistoryInv, ClaimsInv;
    var w' := Step(w, e);
    StepKeepsInv(w, e);
    forall c | HasFinal(w', c) ensures FinalClaim(w', c).phase == Pending || FinalClaim(w', c).phase == Bound {
      var k := w'.checkouts[c].claim;
      StepClaim(w, e, k);
      if k in w.cluster.claims {
        SameOwner(w, w', c, k);
        FinalHasVolume(w, k);
      }
    }
  }

  /** A claim that keeps its UID keeps its owner. */
  lemma SameOwner(w: World, w': World, c: Uid, k: Key)
    requires Core(w) && Core(w') && Grows(w, w')
    requires k in w.cluster.claims && k in w'.cluster.claims && w.cluster.claims[k].uid == w'.cluster.claims[k].uid
    requires w'.cluster.claims[k].controller == Some(CheckoutOwner(c))
    ensures w.cluster.claims[k].controller == Some(CheckoutOwner(c))
  {
    hide VolumesInv, CheckoutInv, HistoryInv;
    assert ClaimShape(w, k, w.cluster.claims[k]) && ClaimShape(w', k, w'.cluster.claims[k]);
  }

  lemma {:induction false} RunNeverLost(w0: World, es: seq<Event>)
    requires Init(w0)
    ensures NeverLost(Run(w0, es))
  {
    hide Step, ProcInv, ReplicaInv, CheckoutInv, VolumeShape, HistoryInv, Inv;
    if es != [] {
      var n := |es| - 1;
      RunNeverLost(w0, es[..n]);
      InitInv(w0);
      RunKeepsInv(w0, es[..n]);
      hide Init, NeverLost;
      StepNeverLost(Run(w0, es[..n]), es[n]);
    }
  }

  /** What every reachable state is. */
  ghost predicate Sane(w: World) {
    Inv(w) && NeverLost(w)
  }

  lemma ReachableSane(w: World)
    requires Reachable(w)
    ensures Sane(w)
  {
    hide Run, ProcInv, Core, ReplicaInv;
    ReachableInv(w);
    var w0: World, es: seq<Event> :| Init(w0) && w == Run(w0, es);
    RunNeverLost(w0, es);
  }

  lemma StepSane(w: World, e: Event)
    requires Sane(w)
    ensures Sane(Step(w, e))
  {
    hide Step, Inv, NeverLost, Grows, Harmless;
    StepKeepsInv(w, e);
    StepNeverLost(w, e);
  }

  // ------------------------------------------------------- an undisturbed actor

  /** n API calls of checkout c, all answered, nobody else acting. */
  function Advances(w: World, c: Uid, listing: seq<Key>, n: nat): World
    decreases n
  {
    if n == 0 then w else Advances(Step(w, Advance(c, None, listing)), c, listing, n - 1)
  }

  lemma {:induction false} AdvancesSane(w: World, c: Uid, listing: seq<Key>, n: nat)
    requires Sane(w)
    ensures Sane(Advances(w, c, listing, n))
    decreases n
  {
    hide Step, Sane;
    if n != 0 {
      StepSane(w, Advance(c, None, listing));
      AdvancesSane(Step(w, Advance(c, None, listing)), c, listing, n - 1);
    }
  }

  /** Checkout c is where this reconcile is, in this cluster. */
  ghost predicate Stands(w: World, c: Uid, a: Alone) {
    c in w.procs && w.procs[c] == a.proc && w.cluster == a.cluster
  }

  lemma AdvanceCalls(w: World, c: Uid, listing: seq<Key>, a: Alone)
    requires Stands(w, c, a)
    ensures Stands(Step(w, Advance(c, None, listing)), c, Call(a, listing))
    ensures Step(w, Advance(c, None, listing)).checkouts == w.checkouts
  {
    hide NextCall, Resume, Serve, StepAdvanceReplica, StepChoose, ConfiguredReplica, Persisting, StepPool;
  }

  lemma {:induction false} AdvancesCalls(w: World, c: Uid, listing: seq<Key>, n: nat, a: Alone)
    requires Stands(w, c, a)
    ensures Stands(Advances(w, c, listing, n), c, Calls(a, listing, n))
    ensures Advances(w, c, listing, n).checkouts == w.checkouts
    decreases n
  {
    hide Step, Call, Stands;
    if n != 0 {
      AdvanceCalls(w, c, listing, a);
      AdvancesCalls(Step(w, Advance(c, None, listing)), c, listing, n - 1, Call(a, listing));
    }
  }

  /** The checkout resource of a checkout of this world. */
  predicate Is(w: World, co: Checkout) {
    co.uid in w.checkouts && w.checkouts[co.uid] == CheckoutKeys(co.lockedKey, co.claimKey)
  }

  lemma BeginStands(w: World, co: Checkout)
    requires Is(w, co)
    ensures Stands(Step(w, Begin(co.uid, co.pool, co.accessModes)), co.uid, Alone(w.cluster, StartProc(co)))
    ensures Step(w, Begin(co.uid, co.pool, co.accessModes)).checkouts == w.checkouts
  {
    hide StartProc, StepAdvance, StepAdvanceReplica, StepChoose, ConfiguredReplica, Persisting, StepPool;
  }

  /** As many calls as any of these reconciles makes. */
  const ENOUGH: nat := 8

  /** The state after a reconcile of checkout c that nobody disturbs. */
  function Retried(w: World, c: Uid, pool: Key, modes: seq<AccessMode>): World {
    Advances(Step(w, Begin(c, pool, modes)), c, [], ENOUGH)
  }

  lemma RetriedStands(w: World, co: Checkout)
    requires Sane(w) && Is(w, co)
    ensures var w' := Retried(w, co.uid, co.pool, co.accessModes);
      Sane(w') && w'.checkouts == w.checkouts && Stands(w', co.uid, Calls(Alone(w.cluster, StartProc(co)), [], ENOUGH))
  {
    hide Step, Advances, Calls, Sane, Stands, Is, StartProc;
    var w1 := Step(w, Begin(co.uid, co.pool, co.accessModes));
    BeginStands(w, co);
    StepSane(w, Begin(co.uid, co.pool, co.accessModes));
    AdvancesCalls(w1, co.uid, [], ENOUGH, Alone(w.cluster, StartProc(co)));
    AdvancesSane(w1, co.uid, [], ENOUGH);
  }

  // ---------------------------------------------------- what is found on the way

  /** The handoff of x is under way; the final claim's name is free or the checkout's
      own. */
  ghost predicate Underway(w: World, co: Checkout, x: Uid) {
    && Is(w, co) && Engaged(w, co.uid, x)
    && (co.claimKey in w.cluster.claims ==> HasFinal(w, co.uid))
  }

  /** What a reconcile would find. */
  lemma UnderwayHeld(w: World, co: Checkout, x: Uid)
    requires Core(w) && Underway(w, co, x)
    ensures FreeOrOwn(w.cluster, co.lockedKey, co.uid) && FreeOrOwn(w.cluster, co.claimKey, co.uid)
    ensures co.lockedKey in w.cluster.claims && co.lockedKey != co.claimKey
    ensures HeldFor(w.cluster, co, x)
  {
    hide CheckoutInv, VolumeShape, HistoryInv, ClaimsInv;
    LockedOnlyVolume(w, co.uid, x);
    if HasFinal(w, co.uid) {
      FinalNames(w, co.uid, x);
    }
    hide Core;
  }

  /** The pairs found under the checkout's names are those of the handoff of x. */
  ghost predicate HeldFor(s: Cluster, co: Checkout, x: Uid) {
    var h := HeldAt(s, co);
    && h.lockedVolume == (if Provisioned(x) in s.volumes then Some(NamedVolume(Provisioned(x), s.volumes[Provisioned(x)])) else None)
    && h.locked.spec.volumeName == Some(Provisioned(x))
    && (co.claimKey in s.claims ==>
          && h.claim.spec.volumeName == Some(Derived(x))
          && h.volume == if Derived(x) in s.volumes then Some(NamedVolume(Derived(x), s.volumes[Derived(x)])) else None)
  }

  lemma LockedOnlyVolume(w: World, c: Uid, x: Uid)
    requires Core(w) && Engaged(w, c, x)
    ensures Provisioned(x) in w.cluster.volumes ==> RefersTo(w.cluster, Provisioned(x), LockedClaim(w, c).uid)
    ensures w.checkouts[c].locked != w.checkouts[c].claim
  {
    hide ClaimsInv, CheckoutInv, VolumeShape;
    if Provisioned(x) in w.cluster.volumes {
      assert VolumeShape(w, Provisioned(x), w.cluster.volumes[Provisioned(x)]);
    }
  }

  /** The final claim and its volume, if there, belong to this handoff. */
  lemma FinalNames(w: World, c: Uid, x: Uid)
    requires Core(w) && Engaged(w, c, x) && HasFinal(w, c)
    ensures FinalClaim(w, c).spec.volumeName == Some(Derived(x))
    ensures Derived(x) in w.cluster.volumes ==> RefersTo(w.cluster, Derived(x), FinalClaim(w, c).uid)
  {
    hide VolumesInv, HistoryInv, ClaimsInv;
    assert CheckoutInv(w, c);
  }

  /** What is there under the checkout's names fits what it would write. */
  ghost predicate Fits(s: Cluster, co: Checkout, x: Uid) {
    && Provisioned(x) in s.volumes && co.lockedKey in s.claims && co.lockedKey != co.claimKey
    && var (l, o) := (s.claims[co.lockedKey], s.volumes[Provisioned(x)]);
    && l.uid != 0 && o.uid == x != 0
    && l.spec.volumeName == Some(Provisioned(x))
    && l.spec.storageClass == Some(o.spec.storageClass) && l.spec.accessModes == o.spec.accessModes
    && (Derived(x) in s.volumes ==> s.volumes[Derived(x)].uid != 0)
    && if co.claimKey in s.claims then
         var f := s.claims[co.claimKey];
         && f.uid != 0 && f.spec.volumeName == Some(Derived(x)) && f.spec.storageClass == Some(o.spec.storageClass)
       else Derived(x) !in s.volumes
  }

  lemma FoundFits(w: World, co: Checkout, x: Uid)
    requires Core(w) && Underway(w, co, x) && Provisioned(x) in w.cluster.volumes
    ensures Fits(w.cluster, co, x)
  {
    hide Final, Handed, Taken, Anchored, InitsInv, Untaken, Readied, Marked;
    assert CheckoutInv(w, co.uid);
    assert VolumeShape(w, Provisioned(x), w.cluster.volumes[Provisioned(x)]);
    assert ClaimShape(w, co.lockedKey, LockedClaim(w, co.uid));
    if HasFinal(w, co.uid) {
      assert ClaimShape(w, co.claimKey, FinalClaim(w, co.uid));
    }
    if Derived(x) in w.cluster.volumes {
      assert VolumeShape(w, Derived(x), w.cluster.volumes[Derived(x)]);
    }
  }

  lemma FitsWritable(s: Cluster, co: Checkout, x: Uid)
    requires Fits(s, co, x) && HeldFor(s, co, x)
    requires co.claimKey in s.claims ==>
      s.claims[co.claimKey].phase != Bound && s.claims[co.claimKey].spec.accessModes == co.accessModes
    ensures var h := HeldAt(s, co);
      && h.lockedVolume.Some? && h.claim.phase != Bound && Writable(s, co, Configured(co, h)) && Asks(co, h, x)
  {
  }

  /** So every write of the reconcile will be accepted. */
  lemma FoundWritable(w: World, co: Checkout, x: Uid)
    requires Core(w) && Underway(w, co, x) && Provisioned(x) in w.cluster.volumes && !BoundFinal(w, co.uid)
    requires HasFinal(w, co.uid) ==> FinalClaim(w, co.uid).spec.accessModes == co.accessModes
    ensures FreeOrOwn(w.cluster, co.lockedKey, co.uid) && FreeOrOwn(w.cluster, co.claimKey, co.uid)
    ensures var h := HeldAt(w.cluster, co);
      && h.lockedVolume.Some? && h.claim.phase != Bound && Writable(w.cluster, co, Configured(co, h))
      && Asks(co, h, x) && (co.claimKey in w.cluster.claims ==> w.cluster.claims[co.claimKey].phase != Bound)
  {
    hide Core, HeldAt, Fits, HeldFor, Configured, Writable, Engaged, CheckoutInv, VolumeShape, HistoryInv;
    UnderwayHeld(w, co, x);
    FoundFits(w, co, x);
    FitsWritable(w.cluster, co, x);
  }

  /** The configured final claim names the volume that is made for it over x. */
  ghost predicate Asks(co: Checkout, h: Held, x: Uid) {
    var m := Configured(co, h);
    && m.claim.spec.volumeName == Some(Derived(x))
    && m.volume.Some? && m.volume.value.name == Derived(x)
  }

  // ---------------------------------------------------------------------- recovery

  /** Recovery.  Take any reachable state, whatever was crashing or half done, in
      which the volume was taken and is still there.  If the final claim's name is
      free or the checkout's own, and the access modes it asked for have not
      changed since, then one undisturbed reconcile followed by the binder binds
      the final claim, whatever pool the checkout names by now. */
  lemma RecoveryCompletes(w: World, c: Uid, pool: Key, modes: seq<AccessMode>, x: Uid)
    requires Reachable(w) && Engaged(w, c, x) && Provisioned(x) in w.cluster.volumes && !BoundFinal(w, c)
    requires w.checkouts[c].claim in w.cluster.claims ==> HasFinal(w, c)
    requires HasFinal(w, c) ==> FinalClaim(w, c).spec.accessModes == modes
    ensures BoundFinal(Step(Retried(w, c, pool, modes), Bind(w.checkouts[c].claim, Derived(x))), c)
  {
    hide Step, Calls, Inv, Core, Written, Configured, Writable;
    var co := Checkout(c, w.checkouts[c].locked, w.checkouts[c].claim, pool, modes);
    ReachableSane(w);
    SaneCore(w);
    hide Reachable, Retried, HeldAt, NeverLost;
    FoundWritable(w, co, x);
    Finishes(w.cluster, co, []);
    RetriedStands(w, co);
    WrittenBinds(w.cluster, Retried(w, c, pool, modes), co, HeldAt(w.cluster, co), x);
  }

  lemma SaneCore(w: World)
    requires Sane(w)
    ensures Inv(w) && Core(w) && NeverLost(w) && Identified(w.cluster)
  {
    hide NeverLost, ProcInv, CheckoutInv, ReplicaInv;
  }

  /** Once all is written the binder binds. */
  lemma WrittenBinds(s: Cluster, w: World, co: Checkout, h: Held, x: Uid)
    requires Sane(w) && Is(w, co) && Written(s, w.cluster, co, Configured(co, h)) && Asks(co, h, x)
    ensures BoundFinal(Step(w, Bind(co.claimKey, Derived(x))), co.uid)
  {
    hide Step, Inv, Configured, SameContent, Core;
    SaneCore(w);
    BindsFinal(w, co.uid, co.claimKey, x);
  }

  /** The final claim, under this key, names the volume derived from x. */
  predicate Wants(w: World, c: Uid, k: Key, x: Uid) {
    HasFinal(w, c) && w.checkouts[c].claim == k && FinalClaim(w, c).spec.volumeName == Some(Derived(x))
  }

  predicate Bindable(w: World, c: Uid, x: Uid) {
    && HasFinal(w, c) && (FinalClaim(w, c).phase == Pending || FinalClaim(w, c).phase == Bound)
    && RefersTo(w.cluster, Derived(x), FinalClaim(w, c).uid)
  }

  lemma BindsFinal(w: World, c: Uid, k: Key, x: Uid)
    requires Core(w) && NeverLost(w) && Wants(w, c, k, x) && Derived(x) in w.cluster.volumes
    ensures BoundFinal(Step(w, Bind(k, Derived(x))), c)
  {
    hide Step, Core;
    FinalRefers(w, c, k, x);
    BindEffect(w, c, k, x);
  }

  lemma FinalRefers(w: World, c: Uid, k: Key, x: Uid)
    requires Core(w) && NeverLost(w) && Wants(w, c, k, x) && Derived(x) in w.cluster.volumes
    ensures Bindable(w, c, x)
  {
    hide VolumesInv, HistoryInv, ClaimsInv;
    assert CheckoutInv(w, c);
  }

  lemma BindEffect(w: World, c: Uid, k: Key, x: Uid)
    requires Wants(w, c, k, x) && Bindable(w, c, x)
    ensures BoundFinal(Step(w, Bind(k, Derived(x))), c)
  {
    hide Step, StepPool, RefersTo;
    StepParts(w, Bind(k, Derived(x)));
  }

  // ----------------------------------------------------------------- from the start

  /** A volume on offer is untouched: the checkout may write over it. */
  lemma OfferedFresh(w: World, pool: Pool, r: Replica)
    requires Core(w) && Offered(w.cluster, pool, r)
    ensures r.volume.Some?
    ensures var v := r.volume.value;
      && v.name == Provisioned(v.volume.uid) && v.name in w.cluster.volumes && w.cluster.volumes[v.name] == v.volume
      && v.volume.uid != 0 && Derived(v.volume.uid) !in w.cluster.volumes
  {
    hide CheckoutInv, Anchored, Handed, InitsInv, CarriesOrigin, Untaken, Readied;
    var v := r.volume.value;
    assert ClaimShape(w, r.key, w.cluster.claims[r.key]);
    assert VolumeShape(w, v.name, w.cluster.volumes[v.name]);
    assert Derived(v.volume.uid) in w.cluster.volumes ==>
      VolumeShape(w, Derived(v.volume.uid), w.cluster.volumes[Derived(v.volume.uid)]);
  }

  /** What a fresh checkout holds after choosing. */
  function Picking(r: Replica): Held {
    NOTHING_HELD.(lockedVolume := r.volume)
  }

  lemma FreshWritable(s: Cluster, co: Checkout, r: Replica)
    requires co.lockedKey !in s.claims && co.claimKey !in s.claims && co.lockedKey != co.claimKey && r.volume.Some?
    requires var v := r.volume.value;
      && v.name == Provisioned(v.volume.uid) && v.name in s.volumes && s.volumes[v.name] == v.volume
      && v.volume.uid != 0 && Derived(v.volume.uid) !in s.volumes
    ensures Writable(s, co, Configured(co, Picking(r))) && Asks(co, Picking(r), r.volume.value.volume.uid)
  {
  }

  lemma ChooseStands(w: World, co: Checkout, q: Scan, i: nat, r: Replica)
    requires Stands(w, co.uid, Alone(w.cluster, StartProc(co).(pc := Choosing, scan := q)))
    requires IsOldest(q.available, i, r)
    ensures var w' := Step(w, Choose(co.uid, i));
      w'.checkouts == w.checkouts && Stands(w', co.uid, Alone(w.cluster, BeginPersist(Chooses(co, q, r))))
  {
    hide BeginPersist, Oldest, StepAdvance, StepAdvanceReplica, ConfiguredReplica, Persisting, StepPool;
  }

  predicate IsOldest(rs: seq<Replica>, i: nat, r: Replica) {
    Oldest(rs, i) && rs[i] == r
  }

  function Chooses(co: Checkout, q: Scan, r: Replica): Proc {
    StartProc(co).(pc := Choosing, scan := q, mem := Picking(r), source := Some(r))
  }

  lemma ChecksApart(w: World, co: Checkout)
    requires Core(w) && Is(w, co)
    ensures co.lockedKey != co.claimKey
  {
    hide VolumesInv, CheckoutInv, ClaimsInv;
  }

  /** A reconcile that looks into the pool with n calls, chooses the i-th available
      replica and writes, nobody else acting. */
  function FirstReconcile(w: World, co: Checkout, listing: seq<Key>, n: nat, i: nat): World {
    var w1 := Advances(Step(w, Begin(co.uid, co.pool, co.accessModes)), co.uid, listing, n);
    Advances(Step(w1, Choose(co.uid, i)), co.uid, listing, 4)
  }

  /** Progress.  In any reachable state, a checkout whose two names are free and whose
      pool has a replica on offer needs one undisturbed reconcile, followed by the
      binder, to have its claim bound, to a volume over the storage of such a replica. */
  lemma FreshCompletes(w: World, co: Checkout, pool: Pool, listing: seq<Key>) returns (n: nat, i: nat, r: Replica)
    requires Reachable(w) && Is(w, co) && co.lockedKey !in w.cluster.claims && co.claimKey !in w.cluster.claims
    requires Find(w.cluster.pools, co.pool) == Some(pool)
    requires IsListing(w.cluster, pool.key.namespace, pool.spec.selector, listing)
    requires exists r' :: Offered(w.cluster, pool, r')
    ensures Offered(w.cluster, pool, r) && r.volume.value.name == Provisioned(r.volume.value.volume.uid)
    ensures var x := r.volume.value.volume.uid;
      BoundFinal(Step(FirstReconcile(w, co, listing, n, i), Bind(co.claimKey, Derived(x))), co.uid)
  {
    hide Reachable, Step, Advances, Calls, Sane, Stands, Writable, Configured, Written, Oldest, Offered, Midway,
      IsListing, Core, Referring, BeginPersist, Inv;
    var s, c := w.cluster, co.uid;
    ReachableSane(w);
    SaneCore(w);
    ChecksApart(w, co);
    InvRefers(w);
    var w1 := Step(w, Begin(c, co.pool, co.accessModes));
    BeginStands(w, co);
    StepSane(w, Begin(c, co.pool, co.accessModes));
    var q;
    n, q := LooksIntoPool(s, co, pool, listing);
    AdvancesCalls(w1, c, listing, n, Alone(s, StartProc(co)));
    AdvancesSane(w1, c, listing, n);
    var w2 := Advances(w1, c, listing, n);
    i := OldestOffered(s, pool, listing, q);
    r := q.available[i];
    OfferedFresh(w, pool, r);
    StandsIn(w2, c, Alone(s, StartProc(co).(pc := Choosing, scan := q)));
    ChooseStands(w2, co, q, i, r);
    StepSane(w2, Choose(c, i));
    FreshWritable(s, co, r);
    WritesAll(s, Chooses(co, q, r), listing);
    var w3, a := Step(w2, Choose(c, i)), Alone(s, BeginPersist(Chooses(co, q, r)));
    AdvancesCalls(w3, c, listing, 4, a);
    AdvancesSane(w3, c, listing, 4);
    var w4 := Advances(w3, c, listing, 4);
    StandsIn(w4, c, Calls(a, listing, 4));
    WrittenBinds(s, w4, co, Picking(r), r.volume.value.volume.uid);
  }

  lemma StandsIn(w: World, c: Uid, a: Alone)
    requires Stands(w, c, a)
    ensures w.cluster == a.cluster
  {
  }

  // ------------------------------------------------------------------- once again

  /** Idempotence: a reconcile that follows a complete one, the claim still being
      unbound, reads back what was written and rewrites it unchanged: the cluster
      stays as it is, down to the resource versions. */
  lemma RetryAgain(w: World, c: Uid, pool: Key, pool': Key, modes: seq<AccessMode>, x: Uid)
    requires Reachable(w) && Engaged(w, c, x) && Provisioned(x) in w.cluster.volumes && !BoundFinal(w, c)
    requires w.checkouts[c].claim in w.cluster.claims ==> HasFinal(w, c)
    requires HasFinal(w, c) ==> FinalClaim(w, c).spec.accessModes == modes
    ensures var w' := Retried(w, c, pool, modes); Retried(w', c, pool', modes).cluster == w'.cluster
  {
    hide Step, Calls, Inv, Core, Written, Configured, Writable;
    var co := Checkout(c, w.checkouts[c].locked, w.checkouts[c].claim, pool, modes);
    ReachableSane(w);
    SaneCore(w);
    hide Reachable, Retried, HeldAt, NeverLost, PairsThere;
    FoundWritable(w, co, x);
    Finishes(w.cluster, co, []);
    RetriedStands(w, co);
    var w' := Retried(w, c, pool, modes);
    SaneCore(w');
    WrittenHeld(w.cluster, w'.cluster, co, HeldAt(w.cluster, co));
    PoolIrrelevant(w'.cluster, co, pool');
    Repeats(w'.cluster, co.(pool := pool'), []);
    RetriedStands(w', co.(pool := pool'));
  }

  /** Neither reading nor configuring looks at the pool's name. */
  lemma PoolIrrelevant(s: Cluster, co: Checkout, pool: Key)
    ensures var co' := co.(pool := pool);
      && HeldAt(s, co') == HeldAt(s, co) && Configured(co', HeldAt(s, co)) == Configured(co, HeldAt(s, co))
      && (PairsThere(s, co', HeldAt(s, co)) <==> PairsThere(s, co, HeldAt(s, co)))
  {
    hide VolumeFor, PairThere;
  }

  // -------------------------------------------------------------------- cleaning up

  /** The locked pair is gone, and the final pair is what it was. */
  ghost predicate CleanedUp(w: World, w': World, c: Uid, x: Uid) {
    && !HasLocked(w', c) && BoundFinal(w', c)
    && Provisioned(x) !in w'.cluster.volumes
    && Derived(x) in w.cluster.volumes && Derived(x) in w'.cluster.volumes
    && w'.cluster.volumes[Derived(x)] == w.cluster.volumes[Derived(x)]
  }

  /** The locked volume read is the pool volume, and if none was there is none. */
  predicate Holds(w: World, v: Option<NamedVolume>, x: Uid) {
    if v.Some? then v.value.name == Provisioned(x) else Provisioned(x) !in w.cluster.volumes
  }

  lemma Finalized(w: World, w': World, co: Checkout, x: Uid, v: Option<NamedVolume>)
    requires Is(w, co) && BoundFinal(w, co.uid) && w'.checkouts == w.checkouts && co.lockedKey != co.claimKey
    requires OnlyMarked(w.cluster, w'.cluster, co.lockedKey, v) && Derived(x) in w.cluster.volumes
    requires Holds(w', v, x)
    ensures CleanedUp(w, Step(Step(w', FinalizeVolume(Provisioned(x))), FinalizeClaim(co.lockedKey)), co.uid, x)
  {
    hide Step, StepPool, StepAround, StepFinalizeVolume, StepFinalizeClaim, OnlyMarked, CleanedUp, Holds, HasFinal;
    var w1 := Step(w', FinalizeVolume(Provisioned(x)));
    StepParts(w', FinalizeVolume(Provisioned(x)));
    FinalizesOnly(w', co.lockedKey, Provisioned(x));
    PoolVolumeGone(w, w', co.lockedKey, x, v);
    StepParts(w1, FinalizeClaim(co.lockedKey));
    FinalizesOnly(w1, co.lockedKey, Provisioned(x));
    LockedGone(w, w', w1, co, x, v);
  }

  lemma PoolVolumeGone(w: World, w': World, k: Key, x: Uid, v: Option<NamedVolume>)
    requires OnlyMarked(w.cluster, w'.cluster, k, v) && Holds(w', v, x)
    ensures var w1 := StepFinalizeVolume(w', Provisioned(x));
      && Provisioned(x) !in w1.cluster.volumes && w1.cluster.claims == w'.cluster.claims && w1.checkouts == w'.checkouts
      && Find(w1.cluster.volumes, Derived(x)) == Find(w.cluster.volumes, Derived(x))
  {
  }

  lemma LockedGone(w: World, w': World, w1: World, co: Checkout, x: Uid, v: Option<NamedVolume>)
    requires Is(w, co) && BoundFinal(w, co.uid) && w1.checkouts == w.checkouts && co.lockedKey != co.claimKey
    requires OnlyMarked(w.cluster, w'.cluster, co.lockedKey, v) && w1.cluster.claims == w'.cluster.claims
    requires Derived(x) in w.cluster.volumes && Provisioned(x) !in w1.cluster.volumes
    requires Find(w1.cluster.volumes, Derived(x)) == Find(w.cluster.volumes, Derived(x))
    ensures CleanedUp(w, StepFinalizeClaim(w1, co.lockedKey), co.uid, x)
  {
  }

  lemma FinalizesOnly(w: World, k: Key, n: VolumeName)
    ensures StepAround(w, FinalizeVolume(n)) == StepFinalizeVolume(w, n)
    ensures StepAround(w, FinalizeClaim(k)) == StepFinalizeClaim(w, k)
  {
    hide StepFinalizeVolume, StepFinalizeClaim, StepProvision, StepBind, StepMarkLost, StepReclaim, StepEndJob,
      StepCreateClaim, StepEditClaim, StepRemoveClaim;
  }

  lemma BoundFacts(w: World, c: Uid)
    requires Core(w) && HasLocked(w, c) && BoundFinal(w, c)
    ensures var f := FinalClaim(w, c);
      && f.spec.volumeName.Some? && f.spec.volumeName.value.Derived?
      && Engaged(w, c, f.spec.volumeName.value.of) && Derived(f.spec.volumeName.value.of) in w.cluster.volumes
  {
    hide VolumesInv, HistoryInv, ClaimsInv;
    assert CheckoutInv(w, c);
  }

  /** Cleanup.  Once the final claim is bound, one undisturbed reconcile and the
      finalizers remove the locked claim and the pool's volume object, wherever an
      earlier reconcile had stopped; the requester keeps its bound claim and its
      volume, as they were. */
  lemma CleanupCompletes(w: World, c: Uid, pool: Key, modes: seq<AccessMode>)
    requires Reachable(w) && HasLocked(w, c) && BoundFinal(w, c)
    ensures FinalClaim(w, c).spec.volumeName.Some? && FinalClaim(w, c).spec.volumeName.value.Derived?
    ensures var x := FinalClaim(w, c).spec.volumeName.value.of;
      var w1 := Step(Retried(w, c, pool, modes), FinalizeVolume(Provisioned(x)));
      CleanedUp(w, Step(w1, FinalizeClaim(w.checkouts[c].locked)), c, x)
  {
    hide Step, Calls, Inv, CheckoutInv, VolumeShape, ClaimsInv, VolumesInv;
    var co := Checkout(c, w.checkouts[c].locked, w.checkouts[c].claim, pool, modes);
    ReachableSane(w);
    SaneCore(w);
    BoundFacts(w, c);
    var x := FinalClaim(w, c).spec.volumeName.value.of;
    hide Reachable, Retried, Core, NeverLost, OnlyMarked, Engaged, CleanedUp;
    UnderwayHeld(w, co, x);
    Cleans(w.cluster, co, []);
    RetriedStands(w, co);
    var w' := Retried(w, c, pool, modes);
    var v := HeldAt(w.cluster, co).lockedVolume;
    Finalized(w, w', co, x, v);
  }
}
