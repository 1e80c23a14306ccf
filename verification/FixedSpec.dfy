/** The handoff of a checkout whose spec does not change. */
module FixedSpec {
  import opened Kube
  import opened Checkouts
  import opened World
  import opened HandoffInvariant
  import opened HandoffRuns
  import opened HandoffTheorems

  /** Every reconcile of checkout c in the run sees the same access modes. */
  predicate SpecFixed(es: seq<Event>, c: Uid, modes: seq<AccessMode>) {
    forall i | 0 <= i < |es| :: BeginsWith(es[i], c, modes)
  }

  /** If this starts a reconcile of checkout c, it sees these modes. */
  predicate BeginsWith(e: Event, c: Uid, modes: seq<AccessMode>) {
    e.Begin? && e.c == c ==> e.accessModes == modes
  }

  /** Whatever the checkout holds in memory or wrote asks for these modes. */
  ghost predicate Asks(w: World, c: Uid, modes: seq<AccessMode>) {
    ProcAsks(w, c, modes) && FinalAsks(w, c, modes)
  }

  ghost predicate ProcAsks(w: World, c: Uid, modes: seq<AccessMode>) {
    c in w.procs ==> w.procs[c].checkout.accessModes == modes
  }

  ghost predicate FinalAsks(w: World, c: Uid, modes: seq<AccessMode>) {
    HasFinal(w, c) ==> FinalClaim(w, c).spec.accessModes == modes
  }

  lemma ResumeKeepsCheckout(p: Proc, r: Response)
    ensures Resume(p, r).checkout == p.checkout
  {
    hide ResumeScan, Configured, Synced;
  }

  lemma ProcsAsk(w: World, e: Event, c: Uid, modes: seq<AccessMode>)
    requires ProcAsks(w, c, modes) && BeginsWith(e, c, modes)
    ensures ProcAsks(Step(w, e), c, modes)
  {
    hide Resume, Called, StepAdvanceReplica, NextCall, StepPool;
    if Actor(e) != Some(c) {
      OtherProcs(w, e, c);
    } else if e.Advance? {
      if c in w.procs && NextCall(w.procs[c]).Some? {
        ResumeKeepsCheckout(w.procs[c], Called(w, NextCall(w.procs[c]).value, e.fault, e.listing).1);
      }
    } else {
      hide Configured;
    }
  }

  lemma ServeSpec(s: Cluster, req: Request, listing: seq<Key>, k: Key)
    requires k in Serve(s, req, listing).0.claims
    ensures var n := Serve(s, req, listing).0.claims[k];
      || (k in s.claims && n.spec == s.claims[k].spec && n.controller == s.claims[k].controller)
      || (req.PutClaim? && req.key == k && n.spec == req.claim.spec && n.controller == req.claim.controller)
  {
  }

  /** The only claim a reconcile stores under the final key asks for its modes. */
  lemma FinalPutAsks(w: World, c: Uid, p: Proc, req: Request)
    requires Core(w) && ProcInv(w, c, p) && NextCall(p) == Some(req) && req.PutClaim? && req.key == w.checkouts[c].claim
    ensures req.claim.spec.accessModes == p.checkout.accessModes
  {
    hide ClaimsInv, VolumesInv, CheckoutInv, LockedRead, FinalUnbound, Snapshot, ReplicaFacts, AtWriteLocked,
      Handed, Takeable, InitsInv, Adopted, MarkedSoundly, AtReadFinalVolume, AtReadFinal, HasLocked, HasFinal,
      AtReadLockedVolume, Engaged;
    assert w.checkouts[c].locked != w.checkouts[c].claim;
    hide Core;
    if p.pc.WriteFinal? {
      assert AtWriteFinal(w, c, p);
    }
  }

  lemma AdvanceCluster(w: World, c: Uid, fault: Option<ApiError>, listing: seq<Key>)
    ensures var w' := StepAdvance(w, c, fault, listing);
      && w'.checkouts == w.checkouts
      && w'.cluster == if c in w.procs && NextCall(w.procs[c]).Some?
                       then Called(w, NextCall(w.procs[c]).value, fault, listing).0 else w.cluster
  {
    hide NextCall, Called, Resume;
  }

  lemma OwnFinalAsks(w: World, e: Event, c: Uid, modes: seq<AccessMode>)
    requires Inv(w) && Asks(w, c, modes) && Actor(e) == Some(c) && HasFinal(Step(w, e), c)
    ensures FinalAsks(Step(w, e), c, modes)
  {
    hide ProcKnows, Core, Resume, ReplicaInv, Serve, StepAdvanceReplica, StepPool, Chosen, NextCall;
    if e.Advance? {
      AdvanceCluster(w, c, e.fault, e.listing);
      hide StepAdvance;
      if c in w.procs && NextCall(w.procs[c]).Some? && e.fault.None? {
        var req := NextCall(w.procs[c]).value;
        assert ProcInv(w, c, w.procs[c]);
        hide ProcInv, Inv;
        ServeSpec(w.cluster, req, e.listing, w.checkouts[c].claim);
        if req.PutClaim? && req.key == w.checkouts[c].claim {
          FinalPutAsks(w, c, w.procs[c], req);
        }
      } else {
        hide Inv;
      }
    } else {
      hide Oldest, Inv;
    }
  }

  lemma StepAsks(w: World, e: Event, c: Uid, modes: seq<AccessMode>)
    requires Inv(w) && c in w.checkouts && Asks(w, c, modes) && BeginsWith(e, c, modes)
    ensures Asks(Step(w, e), c, modes)
  {
    hide Step, Inv, Core, Extends;
    ProcsAsk(w, e, c, modes);
    if HasFinal(Step(w, e), c) {
      if Actor(e) == Some(c) {
        OwnFinalAsks(w, e, c, modes);
      } else {
        StepHarmless(w, e);
      }
    }
    hide ProcInv, ReplicaInv;
  }

  lemma {:induction false} RunAsks(w0: World, es: seq<Event>, c: Uid, modes: seq<AccessMode>)
    requires Init(w0) && c in w0.checkouts && SpecFixed(es, c, modes)
    ensures Inv(Run(w0, es)) && Asks(Run(w0, es), c, modes) && c in Run(w0, es).checkouts
  {
    hide Step, ProcInv, ReplicaInv, CheckoutInv, VolumeShape, HistoryInv, Inv;
    InitInv(w0);
    RunKeepsInv(w0, es);
    if es != [] {
      var n := |es| - 1;
      RunAsks(w0, es[..n], c, modes);
      hide Init, Asks;
      StepAsks(Run(w0, es[..n]), es[n], c, modes);
      CheckoutsKept(Run(w0, es[..n]), es[n]);
    }
  }

  lemma CheckoutsKept(w: World, e: Event)
    requires Inv(w)
    ensures Step(w, e).checkouts == w.checkouts
  {
    hide Step, Inv, Core, Rely;
    StepHarmless(w, e);
    hide ProcInv, ReplicaInv;
  }

  /** End to end: over every run of any number of controllers in which the spec of
      checkout c asks for `modes`, a bound final claim of c has a volume with
      exactly those modes over the storage of an initialized pool replica, of
      that replica's size and class, read-only to CSI exactly for [ReadOnlyMany]. */
  lemma HandoffDelivers(w0: World, es: seq<Event>, c: Uid, modes: seq<AccessMode>)
    requires Init(w0) && c in w0.checkouts && SpecFixed(es, c, modes) && BoundFinal(Run(w0, es), c)
    ensures var w := Run(w0, es);
      var f := FinalClaim(w, c);
      && f.spec.volumeName.Some? && f.spec.volumeName.value in w.cluster.volumes
      && var v := w.cluster.volumes[f.spec.volumeName.value];
      && v.spec.claimRef == Some(ClaimRef(w.checkouts[c].claim, f.uid))
      && v.spec.accessModes == modes
      && v.spec.handle in w.origin && v.spec.handle in w.taken && v.spec.handle !in w.destroyed
      && var (o, t) := (w.origin[v.spec.handle], w.taken[v.spec.handle]);
      && t.checkout == c && Handed(w, v.spec.handle, t.pool, t.replica)
      && v.spec.capacity == o.capacity && v.spec.storageClass == o.storageClass && v.spec.reclaimPolicy == o.policy
      && (v.spec.csi.Some? <==> o.csi)
      && (v.spec.csi.Some? ==> (v.spec.csi.value <==> modes == [ReadOnlyMany]))
  {
    hide Run, ProcInv, ReplicaInv, VolumesInv, HistoryInv, ClaimsInv;
    RunAsks(w0, es, c, modes);
    assert Reachable(Run(w0, es));
    hide Inv, Reachable;
    Acquired(Run(w0, es), c);
  }
}
