/** Whose claims a controller may touch, over every interleaving. */
module NonInterference {
  import opened Labels
  import opened Kube
  import opened Replica
  import opened Checkouts
  import opened World
  import opened HandoffInvariant
  import opened HandoffOwn
  import opened HandoffRuns

  /** The claim stored under k differs between the two states. */
  predicate Differs(s: Cluster, s': Cluster, k: Key) {
    Find(s.claims, k) != Find(s'.claims, k)
  }

  // ---------------------------------------------------------------- checkouts

  /** A checkout's reconcile creates, updates and deletes claims only under its
      own two names, and only where no claim of somebody else stands at the very
      moment of the call, whatever it had read before. */
  lemma CheckoutTouchesOwn(w: World, e: Event, c: Uid, k: Key)
    requires Reachable(w) && Actor(e) == Some(c) && Differs(w.cluster, Step(w, e).cluster, k)
    ensures c in w.checkouts && (k == w.checkouts[c].locked || k == w.checkouts[c].claim)
    ensures k in w.cluster.claims ==> w.cluster.claims[k].controller == Some(CheckoutOwner(c))
    ensures k in Step(w, e).cluster.claims && Step(w, e).cluster.claims[k].controller == Some(CheckoutOwner(c))
  {
    hide ProcKnows, Resume, Serve, StepAdvanceReplica, CheckoutInv, ReplicaInv, VolumesInv, HistoryInv, Chosen,
      NextCall, ConfiguredReplica, Persisting, StepAround, StepPool;
    ReachableInv(w);
    if e.Advance? && c in w.procs && NextCall(w.procs[c]).Some? && e.fault.None? {
      var p := w.procs[c];
      assert ProcInv(w, c, p);
      var req := NextCall(p).value;
      ServeTouches(w.cluster, req, e.listing, k);
      assert Differs(w.cluster, Serve(w.cluster, req, e.listing).0, k);
      OwnRequest(w, c, p, req);
      if k in w.cluster.claims {
        assert ClaimShape(w, k, w.cluster.claims[k]);
      }
    } else {
    }
  }

  /** Only a put or a delete changes a claim, and only the one it names. */
  lemma ServeTouches(s: Cluster, req: Request, listing: seq<Key>, k: Key)
    requires Differs(s, Serve(s, req, listing).0, k)
    ensures (req.PutClaim? || req.DropClaim?) && req.key == k
    ensures var s' := Serve(s, req, listing).0;
      && k in s'.claims
      && (req.DropClaim? ==> k in s.claims && s.claims[k].uid == req.uid && s'.claims[k].controller == s.claims[k].controller)
      && (req.PutClaim? ==> s'.claims[k].controller == req.claim.controller)
      && (req.PutClaim? && k in s.claims ==> s.claims[k].uid == req.claim.uid && s.claims[k].rv == req.claim.rv)
  {
  }

  /** The only claims a reconcile writes are its own. */
  lemma OwnRequest(w: World, c: Uid, p: Proc, req: Request)
    requires Core(w) && ProcInv(w, c, p) && NextCall(p) == Some(req) && (req.PutClaim? || req.DropClaim?)
    ensures req.key == w.checkouts[c].locked || req.key == w.checkouts[c].claim
    ensures req.PutClaim? ==> req.claim.controller == Some(CheckoutOwner(c))
    ensures req.PutClaim? && req.claim.uid != 0 ==> req.claim.uid in w.owned && w.owned[req.claim.uid] == c
    ensures req.DropClaim? ==> req.uid in w.owned && w.owned[req.uid] == c
  {
    hide HistoryInv, VolumeShape, ReplicaFacts, Core, Handed, FinalVolume, Takeable, MarkedSoundly, LockedVolume,
      Snapshot, AtReadFinalVolume, AtReadFinal, HasLocked, HasFinal, AtReadLockedVolume;
    if p.pc.WriteFinal? {
      assert AtWriteFinal(w, c, p);
      FinalOwned(w, c, p.mem.claim.uid);
    } else if p.pc.WriteLocked? {
      assert AtWriteLocked(w, c, p);
    }
    hide VolumeSeen, Standing, Engaged;
  }

  // -------------------------------------------------------------------- pools

  predicate Writing(p: ReplicaProc) {
    p.pc == PersistDropJob || p.pc == PersistClaim
  }

  /** What a pool controller knows about the owner of the claim it read. */
  ghost predicate OwnerKnown(w: World, p: ReplicaProc) {
    var m := p.mem.claim;
    && m.rv < w.cluster.next && m.uid < w.cluster.next
    && (p.pc != Broken && p.mem.key in w.cluster.claims && w.cluster.claims[p.mem.key].uid == m.uid ==>
          var o := w.cluster.claims[p.mem.key];
          if Writing(p) then
            o.rv == m.rv ==> o.controller == None || o.controller == Some(PoolOwner(p.pool.uid))
          else
            && (o.rv == m.rv ==> o.controller == m.controller)
            && (m.controller.Some? ==> o.controller == m.controller))
  }

  ghost predicate OwnersInv(w: World) {
    && (forall id | id in w.replicas :: OwnerKnown(w, w.replicas[id]))
    && VersionsBelow(w)
  }

  ghost predicate VersionsBelow(w: World) {
    forall k | k in w.cluster.claims :: w.cluster.claims[k].rv < w.cluster.next
  }

  /** A claim changes with a newer version, and its owner never changes. */
  ghost predicate OwnersKept(w: World, w': World) {
    && w.cluster.next <= w'.cluster.next
    && VersionsBelow(w')
    && (forall k | k in w'.cluster.claims && k in w.cluster.claims :: KeptClaim(w, w', k))
    && (forall k | k in w'.cluster.claims && k !in w.cluster.claims :: w.cluster.next <= w'.cluster.claims[k].uid)
  }

  ghost predicate KeptClaim(w: World, w': World, k: Key)
    requires k in w'.cluster.claims && k in w.cluster.claims
  {
    var o, n := w.cluster.claims[k], w'.cluster.claims[k];
    && n.uid == o.uid
    && (n == o || w.cluster.next <= n.rv)
    && (o.controller.Some? ==> n.controller == o.controller)
  }

  lemma OwnerStable(w: World, w': World, p: ReplicaProc)
    requires OwnersKept(w, w') && OwnerKnown(w, p)
    ensures OwnerKnown(w', p)
  {
    if p.mem.key in w'.cluster.claims && p.mem.key in w.cluster.claims {
      assert KeptClaim(w, w', p.mem.key);
    }
  }

  /** Putting `o` under k does not take a claim from its owner. */
  ghost predicate OwnerRespected(w: World, k: Key, o: Claim) {
    (k in w.cluster.claims && w.cluster.claims[k].uid == o.uid && w.cluster.claims[k].rv == o.rv
     && w.cluster.claims[k].controller.Some?) ==> o.controller == w.cluster.claims[k].controller
  }

  /** One request keeps owners if it writes none over another. */
  lemma ServeKeepsOwners(w: World, w': World, req: Request, listing: seq<Key>)
    requires w'.cluster == Serve(w.cluster, req, listing).0
    requires VersionsBelow(w)
    requires req.PutClaim? ==> OwnerRespected(w, req.key, req.claim)
    ensures OwnersKept(w, w')
  {
    hide Serve, ServePutClaim, ServeDropClaim, OwnersKept;
    match req
    case PutClaim(k, o) => ServesPut(w.cluster, k, o, listing); PutKeepsOwners(w, w', k, o);
    case DropClaim(k, uid) => DropKeepsOwners(w, w', k, uid, listing);
    case _ =>
      ServesClaims(w.cluster, req, listing);
      SameOwners(w, w');
  }

  lemma ServesPut(s: Cluster, k: Key, o: Claim, listing: seq<Key>)
    ensures Serve(s, PutClaim(k, o), listing) == ServePutClaim(s, k, o)
  {
    hide ServePutClaim, IsListing;
  }

  lemma ServesClaims(s: Cluster, req: Request, listing: seq<Key>)
    requires !req.PutClaim? && !req.DropClaim?
    ensures Serve(s, req, listing).0.claims == s.claims && s.next <= Serve(s, req, listing).0.next
  {
    hide IsListing, Find;
  }

  lemma SameOwners(w: World, w': World)
    requires VersionsBelow(w) && w'.cluster.claims == w.cluster.claims && w.cluster.next <= w'.cluster.next
    ensures OwnersKept(w, w')
  {
  }

  lemma DropKeepsOwners(w: World, w': World, k: Key, uid: Uid, listing: seq<Key>)
    requires VersionsBelow(w) && w'.cluster == Serve(w.cluster, DropClaim(k, uid), listing).0
    ensures OwnersKept(w, w')
  {
    hide ServePutClaim, IsListing, Find, ServePutVolume, ServePutJob, ServeDropVolume, ServeDropJob;
  }

  lemma PutKeepsOwners(w: World, w': World, k: Key, o: Claim)
    requires w'.cluster == ServePutClaim(w.cluster, k, o).0
    requires VersionsBelow(w)
    requires OwnerRespected(w, k, o)
    ensures OwnersKept(w, w')
  {
    forall k' | k' in w'.cluster.claims && k' in w.cluster.claims ensures KeptClaim(w, w', k') {
    }
  }

  lemma AdvanceOwners(w: World, c: Uid, fault: Option<ApiError>, listing: seq<Key>)
    requires Core(w) && (c in w.procs ==> ProcInv(w, c, w.procs[c])) && OwnersInv(w)
    ensures OwnersKept(w, StepAdvance(w, c, fault, listing))
  {
    hide Resume, ProcInv, Serve, VolumesInv, CheckoutInv, NextCall;
    var w' := StepAdvance(w, c, fault, listing);
    if c in w.procs && NextCall(w.procs[c]).Some? && fault.None? {
      var p := w.procs[c];
      var req := NextCall(p).value;
      if req.PutClaim? {
        OwnRequest(w, c, p, req);
        if req.key in w.cluster.claims {
          assert ClaimShape(w, req.key, w.cluster.claims[req.key]);
        }
      }
      hide Core;
      ServeKeepsOwners(w, w', req, listing);
    } else {
      hide Core;
    }
  }

  lemma AdvanceReplicaOwners(w: World, id: nat, fault: Option<ApiError>)
    requires OwnersInv(w) && (id in w.replicas ==> ReplicaInv(w, w.replicas[id]))
    ensures OwnersKept(w, StepAdvanceReplica(w, id, fault))
  {
    hide Serve, ResumeReplica, Snapshot;
    var w' := StepAdvanceReplica(w, id, fault);
    if id in w.replicas && NextReplicaCall(w.replicas[id]).Some? && fault.None? {
      var p := w.replicas[id];
      assert OwnerKnown(w, p);
      var req := NextReplicaCall(p).value;
      assert req.PutClaim? ==> OwnerRespected(w, req.key, req.claim);
      hide NextReplicaCall, ReplicaFacts, OwnerKnown;
      ServeKeepsOwners(w, w', req, []);
    } else {
      hide NextReplicaCall;
    }
  }

  predicate ClaimEvent(e: Event) {
    e.Bind? || e.MarkLost? || e.FinalizeClaim? || e.CreateClaim? || e.EditClaim? || e.RemoveClaim?
  }

  lemma QuietClaims(w: World, e: Event)
    requires !e.Advance? && !e.AdvanceReplica? && !ClaimEvent(e)
    ensures Step(w, e).cluster.claims == w.cluster.claims && w.cluster.next <= Step(w, e).cluster.next
  {
    hide Step, StepPool, StepAround;
    StepParts(w, e);
    if ByCheckout(e) || ByPool(e) {
      MemoryOnly(w, e);
    } else {
      AroundQuiet(w, e);
    }
  }

  lemma AroundQuiet(w: World, e: Event)
    requires !ByCheckout(e) && !ByPool(e) && !ClaimEvent(e)
    ensures var w' := StepAround(w, e); w'.cluster.claims == w.cluster.claims && w.cluster.next <= w'.cluster.next
  {
    hide LiveUid, RefersTo, MayProvision, MayReclaim, StepBind, StepMarkLost, StepCreateClaim, StepEditClaim,
      StepRemoveClaim, StepFinalizeClaim;
  }

  lemma WithClaimOwners(w: World, k: Key, c: Claim)
    requires VersionsBelow(w)
    requires k in w.cluster.claims ==>
      c.uid == w.cluster.claims[k].uid
      && (w.cluster.claims[k].controller.Some? ==> c.controller == w.cluster.claims[k].controller)
    requires k !in w.cluster.claims ==> c.uid == w.cluster.next
    ensures OwnersKept(w, WithClaim(w, k, c))
  {
    var w' := WithClaim(w, k, c);
    forall k' | k' in w'.cluster.claims && k' in w.cluster.claims ensures KeptClaim(w, w', k') {
    }
  }

  lemma OutsideOwners(w: World, e: Event)
    requires OwnersInv(w) && !e.Advance? && !e.AdvanceReplica?
    ensures OwnersKept(w, Step(w, e))
  {
    hide Step;
    if ClaimEvent(e) {
      ClaimEventOwners(w, e);
    } else {
      QuietClaims(w, e);
      hide OwnerKnown;
    }
  }

  lemma FinalizedOwners(w: World, k: Key)
    requires VersionsBelow(w)
    ensures OwnersKept(w, StepFinalizeClaim(w, k))
  {
  }

  lemma ClaimEventOwners(w: World, e: Event)
    requires VersionsBelow(w) && ClaimEvent(e)
    ensures OwnersKept(w, Step(w, e))
  {
    hide WithClaim, RefersTo, CheckoutOwned, HasLocked, Marked, OwnersKept, StepAdvance, StepAdvanceReplica,
      StepProvision, StepReclaim, StepEndJob, StepFinalizeVolume, StepFinalizeClaim, StepChoose, ConfiguredReplica,
      Persisting;
    SameOwners(w, w);
    if e.FinalizeClaim? {
      FinalizedOwners(w, e.key);
    }
    match e
    case Bind(k, v) =>
      if MayBind(w.cluster, k, v) {
        hide MayBind;
        var c := w.cluster.claims[k];
        WithClaimOwners(w, k, c.(phase := Bound, spec := c.spec.(volumeName := Some(v))));
      }
    case MarkLost(k) =>
      if MayLose(w.cluster, k) {
        assert k in w.cluster.claims;
        WithClaimOwners(w, k, w.cluster.claims[k].(phase := Lost));
      }
    case CreateClaim(k, c) =>
      if MayCreate(w.cluster, k, c) {
        var c' := c.(uid := w.cluster.next, created := w.cluster.next, deleting := false, phase := Pending);
        WithClaimOwners(w, k, c');
        OwnersOfCluster(w, WithClaim(w, k, c'), Step(w, e));
      }
    case EditClaim(k, c) =>
      if MayEdit(w.cluster, k, c) {
        var o := w.cluster.claims[k];
        WithClaimOwners(w, k, c.(uid := o.uid, created := o.created, deleting := o.deleting, phase := o.phase));
      }
    case RemoveClaim(k) =>
      if MayRemove(w, k) {
        WithClaimOwners(w, k, w.cluster.claims[k].(deleting := true));
      }
    case FinalizeClaim(k) =>
  }

  lemma OwnersOfCluster(w: World, v: World, v': World)
    requires OwnersKept(w, v) && v'.cluster == v.cluster
    ensures OwnersKept(w, v')
  {
  }

  lemma StepKept(w: World, e: Event)
    requires Inv(w) && OwnersInv(w)
    ensures OwnersKept(w, Step(w, e))
  {
    hide StepAdvance, StepAdvanceReplica, ProcInv, Core, ReplicaInv, StepChoose, StepAround, ConfiguredReplica,
      Persisting;
    if e.Advance? {
      hide OwnerKnown;
      AdvanceOwners(w, e.c, e.fault, e.listing);
    } else if e.AdvanceReplica? {
      hide OwnerKnown;
      AdvanceReplicaOwners(w, e.id, e.fault);
    } else {
      hide Step, OwnerKnown;
      OutsideOwners(w, e);
    }
  }

  ghost predicate OwnerAt(w: World, id: nat) {
    id in w.replicas ==> OwnerKnown(w, w.replicas[id])
  }

  lemma KnownAfter(w: World, e: Event, id: nat)
    requires OwnersInv(w) && OwnersKept(w, Step(w, e)) && MemAt(w, id)
    requires 0 < w.cluster.next && UidsInRange(w) && UidsInRange(Step(w, e))
    ensures OwnerAt(Step(w, e), id)
  {
    hide OwnerKnown, UidsInRange, ReplicaInv, OwnersKept, OwnersInv, Step, StepAdvanceReplica, Moved;
    if e.AdvanceReplica? && e.id == id {
      AdvancesReplica(w, id, e.fault);
      if id in w.replicas {
        OwnReplicaOwner(w, Step(w, e), id, e.fault);
      } else {
        NoneAdvances(w, id, e.fault);
      }
    } else {
      OtherReplicas(w, e, id);
      KnownElsewhere(w, Step(w, e), e, id);
    }
  }

  lemma StepKeepsOwners(w: World, e: Event)
    requires Inv(w) && OwnersInv(w)
    ensures OwnersInv(Step(w, e))
  {
    hide Step, ProcInv, ReplicaInv, CheckoutInv, Extends, VolumeShape, Core, Rely;
    var w' := Step(w, e);
    StepKept(w, e);
    StepKeepsInv(w, e);
    UidsBelow(w);
    UidsBelow(w');
    hide UidsInRange, OwnerKnown, OwnersInv;
    forall id | id in w'.replicas ensures OwnerKnown(w', w'.replicas[id]) {
      assert MemAt(w, id);
      KnownAfter(w, e, id);
    }
  }

  /** Changes in memory keep the UID and version, and set an owner only to write. */
  lemma LocalOwner(w: World, p: ReplicaProc)
    requires OwnerKnown(w, p) && Idle(p)
    ensures OwnerKnown(w, p.(mem := ConfiguredReplica(p.pool.spec, p.mem)))
    ensures OwnerKnown(w, Persisting(p))
    ensures OwnerKnown(w, Deleting(p))
  {
    ConfigureKeepsIdentity(p.pool.spec, p.mem);
    PersistKeepsIdentity(p);
    hide ConfiguredReplica, Persisting, Overlay;
  }

  lemma ConfigureKeepsIdentity(pool: PoolSpec, r: Replica)
    ensures var (m, m') := (r.claim, ConfiguredReplica(pool, r).claim);
      m'.uid == m.uid && m'.rv == m.rv && m'.controller == m.controller
    ensures ConfiguredReplica(pool, r).key == r.key
  {
  }

  lemma PersistKeepsIdentity(p: ReplicaProc)
    ensures var q := Persisting(p);
      && q.mem.key == p.mem.key && q.mem.claim.uid == p.mem.claim.uid && q.mem.claim.rv == p.mem.claim.rv
      && q.pool == p.pool
      && (q.pc == Broken ==> q.mem.claim.controller == p.mem.claim.controller)
      && (q.pc != Broken ==> Writing(q) && MayOwn(p))
  {
    hide Available;
  }

  lemma KnownElsewhere(w: World, w': World, e: Event, id: nat)
    requires OwnersInv(w) && OwnersKept(w, w') && Moved(w, w', e, id)
    requires 0 < w.cluster.next && UidsInRange(w')
    ensures OwnerAt(w', id)
  {
    hide ConfiguredReplica, Persisting;
    if id in w.replicas {
      var p := w.replicas[id];
      assert OwnerKnown(w, p);
      OwnerStable(w, w', p);
      hide OwnersKept, OwnersInv, Deleting;
      if Idle(p) {
        LocalOwner(w', p);
      }
    } else {
      hide OwnersKept, OwnersInv;
    }
  }

  /** Reading the claim tells its owner. */
  lemma OwnerRead(w: World, p: ReplicaProc, fault: Option<ApiError>)
    requires p.pc == LoadClaim && OwnerKnown(w, p)
    requires VersionsBelow(w)
    requires UidsInRange(w)
    ensures OwnerKnown(w, ResumeReplica(p, Called(w, GetClaim(p.mem.key), fault, []).1))
  {
    hide ServePutClaim;
  }

  /** Writing the claim makes the pool its owner. */
  lemma OwnerWritten(w: World, w': World, p: ReplicaProc, r: Response)
    requires p.pc == PersistClaim && p.mem.claim.controller == Some(PoolOwner(p.pool.uid))
    requires Serve(w.cluster, PutClaim(p.mem.key, p.mem.claim), []) == (w'.cluster, r) && !r.Refused?
    requires OwnerKnown(w, p) && OwnersKept(w, w') && 0 < w.cluster.next && UidsInRange(w')
    ensures OwnerKnown(w', ResumeReplica(p, r))
  {
    PutClaimEffect(w.cluster, p.mem.key, p.mem.claim);
    hide ServePutClaim, KeptClaim;
    assert w'.cluster.claims[p.mem.key] == r.claim;
    assert r.claim.controller == p.mem.claim.controller;
  }

  /** Any other answer tells nothing about the owner. */
  lemma OwnerElsewhere(w: World, p: ReplicaProc, r: Response)
    requires OwnerKnown(w, p) && p.pc != LoadClaim && (p.pc == PersistClaim ==> r.Refused?)
    ensures OwnerKnown(w, ResumeReplica(p, r))
  {
  }

  lemma OwnReplicaOwner(w: World, w': World, id: nat, fault: Option<ApiError>)
    requires OwnersInv(w) && id in w.replicas && MemAt(w, id)
    requires w' == StepAdvanceReplica(w, id, fault) && OwnersKept(w, w')
    requires 0 < w.cluster.next && UidsInRange(w) && UidsInRange(w')
    ensures OwnerAt(w', id)
  {
    hide Serve, ReplicaFacts, ResumeReplica;
    var p := w.replicas[id];
    assert OwnerKnown(w, p) && ReplicaInv(w, p);
    OwnerStable(w, w', p);
    hide OwnerKnown, OwnersKept, StepAdvanceReplica, UidsInRange;
    if NextReplicaCall(p).Some? {
      var r := Called(w, NextReplicaCall(p).value, fault, []).1;
      if p.pc == LoadClaim {
        OwnerRead(w, p, fault);
        OwnerStable(w, w', w'.replicas[id]);
      } else if p.pc == PersistClaim && !r.Refused? {
        OwnerWritten(w, w', p, r);
      } else {
        hide Called, NextReplicaCall, ReplicaInv;
        OwnerElsewhere(w', p, r);
      }
    }
  }

  ghost predicate UidsInRange(w: World) {
    forall k | k in w.cluster.claims :: 0 < w.cluster.claims[k].uid < w.cluster.next
  }

  lemma UidsBelow(w: World)
    requires Inv(w)
    ensures 0 < w.cluster.next && UidsInRange(w)
  {
    hide ProcInv, CheckoutInv, ReplicaInv, VolumesInv;
    forall k | k in w.cluster.claims ensures 0 < w.cluster.claims[k].uid < w.cluster.next {
      assert ClaimShape(w, k, w.cluster.claims[k]);
    }
  }

  lemma {:induction false} RunKeepsOwners(w0: World, es: seq<Event>)
    requires Init(w0)
    ensures Inv(Run(w0, es)) && OwnersInv(Run(w0, es))
  {
    hide Step, ProcInv, CheckoutInv, ReplicaInv, VolumeShape, HistoryInv, Inv;
    InitInv(w0);
    RunKeepsInv(w0, es);
    if es != [] {
      RunKeepsOwners(w0, es[..|es| - 1]);
      StepKeepsOwners(Run(w0, es[..|es| - 1]), es[|es| - 1]);
    }
  }

  /** A pool controller writes a claim only if nobody else owns it, and then owns
      it; it never touches a claim of a checkout; and it deletes a claim only if it
      owns it, or had read it unowned. */
  lemma PoolTouchesOwn(w: World, id: nat, fault: Option<ApiError>, k: Key)
    requires Reachable(w) && id in w.replicas
    requires Differs(w.cluster, Step(w, AdvanceReplica(id, fault)).cluster, k)
    ensures var (p, s') := (w.replicas[id], Step(w, AdvanceReplica(id, fault)).cluster);
      && k == p.mem.key && k in s'.claims
      && (k in w.cluster.claims ==> !CheckoutOwned(w.cluster.claims[k]))
      && (p.pc == PersistClaim ==>
            && s'.claims[k].controller == Some(PoolOwner(p.pool.uid))
            && (k in w.cluster.claims ==>
                  w.cluster.claims[k].controller == None || w.cluster.claims[k].controller == Some(PoolOwner(p.pool.uid))))
      && (p.pc != PersistClaim ==>
            && k in w.cluster.claims && p.pc == DeleteClaim && w.cluster.claims[k].uid == p.mem.claim.uid
            && (p.mem.claim.controller != None ==>
                  p.mem.claim.controller == w.cluster.claims[k].controller == Some(PoolOwner(p.pool.uid))))
  {
    hide StepAdvance, StepAdvanceReplica, ProcInv, CheckoutInv, StepChoose, ReplicaInv, VolumesInv, HistoryInv,
      ConfiguredReplica, Persisting, ClaimShape, OwnerKnown, StepAround;
    ReachableInv(w);
    var w0: World, es: seq<Event> :| Init(w0) && w == Run(w0, es);
    RunKeepsOwners(w0, es);
    hide Run;
    var p := w.replicas[id];
    assert ReplicaInv(w, p) && OwnerKnown(w, p);
    if k in w.cluster.claims {
      assert ClaimShape(w, k, w.cluster.claims[k]);
    }
    hide Core, Reachable, Inv;
    PoolOwnCall(w, id, fault, k);
  }

  lemma PoolOwnCall(w: World, id: nat, fault: Option<ApiError>, k: Key)
    requires id in w.replicas && ReplicaInv(w, w.replicas[id]) && OwnerKnown(w, w.replicas[id])
    requires k in w.cluster.claims ==> ClaimShape(w, k, w.cluster.claims[k])
    requires Differs(w.cluster, StepAdvanceReplica(w, id, fault).cluster, k)
    ensures var (p, s') := (w.replicas[id], StepAdvanceReplica(w, id, fault).cluster);
      && k == p.mem.key && k in s'.claims
      && (k in w.cluster.claims ==> !CheckoutOwned(w.cluster.claims[k]))
      && (p.pc == PersistClaim ==>
            && s'.claims[k].controller == Some(PoolOwner(p.pool.uid))
            && (k in w.cluster.claims ==>
                  w.cluster.claims[k].controller == None || w.cluster.claims[k].controller == Some(PoolOwner(p.pool.uid))))
      && (p.pc != PersistClaim ==>
            && k in w.cluster.claims && p.pc == DeleteClaim && w.cluster.claims[k].uid == p.mem.claim.uid
            && (p.mem.claim.controller != None ==>
                  p.mem.claim.controller == w.cluster.claims[k].controller == Some(PoolOwner(p.pool.uid))))
  {
    hide Serve, ResumeReplica, Snapshot;
    var p := w.replicas[id];
    hide StepAdvanceReplica, ReplicaFacts;
    var req := NextReplicaCall(p).value;
    ServeTouches(w.cluster, req, [], k);
    hide NextReplicaCall, ReplicaInv;
  }

  // ---------------------------------------------------- where the guard matters

  /** A pool that read the claim as its own deletes nobody else's: the condition
      a caller can check before deleting. */
  lemma OwnedReadIsEnough(w: World, id: nat, fault: Option<ApiError>, k: Key)
    requires Reachable(w) && id in w.replicas && w.replicas[id].pc == DeleteClaim
    requires w.replicas[id].mem.claim.controller == Some(PoolOwner(w.replicas[id].pool.uid))
    requires Differs(w.cluster, Step(w, AdvanceReplica(id, fault)).cluster, k)
    ensures k in w.cluster.claims && w.cluster.claims[k].controller == Some(PoolOwner(w.replicas[id].pool.uid))
  {
    hide Step;
    PoolTouchesOwn(w, id, fault, k);
  }
}
