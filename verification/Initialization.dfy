/** Initialized before it is handed out: what the code guarantees of every run, and
    exactly when the init job that vouches for a claim was that claim's own. */
module Initialization {
  import opened Kube
  import opened Replica
  import opened Checkouts
  import opened World
  import opened HandoffInvariant
  import opened HandoffSteps
  import opened HandoffRuns
  import opened HandoffTheorems

  /** At step i of the run the init job of claim u, named k, ended with success. */
  ghost predicate EndedAt(w: World, es: seq<Event>, i: nat, k: Key, u: Uid) {
    i < |es| && es[i] == EndJob(k, Succeeded) && u in Newly(Run(w, es[..i]), k, Succeeded)
  }

  ghost predicate Ended(w: World, es: seq<Event>, k: Key, u: Uid) {
    exists i: nat :: EndedAt(w, es, i, k, u)
  }

  lemma EndedLater(w: World, es: seq<Event>, e: Event, k: Key, u: Uid)
    requires Ended(w, es, k, u)
    ensures Ended(w, es + [e], k, u)
  {
    hide Run;
    var i: nat :| EndedAt(w, es, i, k, u);
    assert (es + [e])[..i] == es[..i];
    assert EndedAt(w, es + [e], i, k, u);
  }

  // ------------------------------------------------- where it is recorded

  /** Three steps note something about initialization; this is what they leave. */
  ghost predicate Notes(w: World, e: Event, i: Inits) {
    match e
    case AdvanceReplica(id, fault) =>
      i == if id in w.replicas && NextReplicaCall(w.replicas[id]).Some?
           then Noted(w, w.replicas[id], Called(w, NextReplicaCall(w.replicas[id]).value, fault, []).1) else w.inits
    case CreateClaim(_, _) => i.ran == w.inits.ran && i.borrowed == w.inits.borrowed
    case EndJob(k, outcome) =>
      i.borrowed == w.inits.borrowed && i.ran == w.inits.ran + Newly(w, k, outcome)
    case _ => i == w.inits
  }

  lemma StepInits(w: World, e: Event)
    ensures Notes(w, e, Step(w, e).inits)
  {
    hide Step, StepAround, StepPool, Notes;
    StepParts(w, e);
    if e.Advance? || e.AdvanceReplica? {
      CallInits(w, e);
    } else if ByCheckout(e) || ByPool(e) {
      MemoryInits(w, e);
    } else {
      AroundInits(w, e);
    }
  }

  lemma AroundInits(w: World, e: Event)
    requires !ByCheckout(e) && !ByPool(e)
    ensures Notes(w, e, StepAround(w, e).inits)
  {
    hide StepAround, Noted, Called, NextReplicaCall;
    if e.EndJob? {
      EndInits(w, e.key, e.outcome);
    } else if e.CreateClaim? {
      CreateInits(w, e.key, e.claim);
    } else {
      AroundMemory(w, e);
    }
  }

  lemma CreateInits(w: World, k: Key, c: Claim)
    ensures var i := StepAround(w, CreateClaim(k, c)).inits;
      i.ran == w.inits.ran && i.borrowed == w.inits.borrowed
  {
    hide StepProvision, StepBind, StepMarkLost, StepReclaim, StepEndJob, StepEditClaim, StepRemoveClaim,
      StepFinalizeClaim, StepFinalizeVolume, MayCreate;
  }

  lemma EndInits(w: World, k: Key, outcome: JobOutcome)
    ensures Notes(w, EndJob(k, outcome), StepAround(w, EndJob(k, outcome)).inits)
  {
    hide Noted, Called, NextReplicaCall, StepProvision, StepBind, StepMarkLost, StepReclaim, StepCreateClaim,
      StepEditClaim, StepRemoveClaim, StepFinalizeClaim, StepFinalizeVolume, StepEndJob;
    assert StepAround(w, EndJob(k, outcome)) == StepEndJob(w, k, outcome);
    JobInits(w, k, outcome);
  }

  lemma JobInits(w: World, k: Key, outcome: JobOutcome)
    ensures var i := StepEndJob(w, k, outcome).inits;
      i.borrowed == w.inits.borrowed && i.ran == w.inits.ran + Newly(w, k, outcome)
  {
  }

  /** Whose init job ends with success when the job at k ends like this. */
  function Newly(w: World, k: Key, outcome: JobOutcome): set<Uid> {
    if outcome == Succeeded && k in w.cluster.jobs && w.cluster.jobs[k].outcome == Running
    then {w.cluster.jobs[k].owner} else {}
  }

  lemma CallInits(w: World, e: Event)
    requires e.Advance? || e.AdvanceReplica?
    ensures Notes(w, e, Step(w, e).inits)
  {
    hide Called, NextCall, Resume, NextReplicaCall, ResumeReplica, Noted, StepChoose, ConfiguredReplica, Persisting,
      StepAround;
  }

  lemma MemoryInits(w: World, e: Event)
    requires !e.Advance? && !e.AdvanceReplica? && (ByCheckout(e) || ByPool(e))
    ensures Notes(w, e, Step(w, e).inits)
  {
    hide Chosen, Oldest, ConfiguredReplica, Persisting, Deleting, Idle, MayOwn, StartProc, StartReplica,
      StepAdvance, StepAdvanceReplica, StepAround, Called;
  }

  lemma NotedRan(w: World, p: ReplicaProc, r: Response)
    ensures Noted(w, p, r).ran == w.inits.ran
  {
  }

  /** The step ends the job of claim u with success. */
  predicate JobEnds(w: World, e: Event, u: Uid) {
    e.EndJob? && e.outcome == Succeeded && u in Newly(w, e.key, Succeeded)
  }

  lemma StepRan(w: World, e: Event, u: Uid)
    requires u !in w.inits.ran && u in Step(w, e).inits.ran
    ensures JobEnds(w, e, u)
  {
    hide Step, Noted, Called, NextReplicaCall;
    StepInits(w, e);
    if e.AdvanceReplica? && e.id in w.replicas && NextReplicaCall(w.replicas[e.id]).Some? {
      NotedRan(w, w.replicas[e.id], Called(w, NextReplicaCall(w.replicas[e.id]).value, e.fault, []).1);
    }
  }

  lemma JobNamed(w: World, k: Key)
    requires Inv(w) && k in w.cluster.jobs
    ensures Named(w.inits, k, w.cluster.jobs[k].owner)
  {
    hide ProcInv, CheckoutInv, ReplicaInv, VolumesInv, HistoryInv, ClaimShape;
  }

  lemma RanNamed(w: World, u: Uid)
    requires Inv(w) && u in w.inits.ran
    ensures u in w.inits.named && Ran(w.inits, w.inits.named[u], u)
  {
    hide ProcInv, CheckoutInv, ReplicaInv, VolumesInv, ClaimsInv;
  }

  lemma GrowsNamed(w: World, w': World, u: Uid)
    requires Grows(w, w') && u in w.inits.named
    ensures u in w'.inits.named && w'.inits.named[u] == w.inits.named[u]
  {
  }

  /** The record of claims whose own job succeeded is earned. */
  lemma {:induction false} RanMeansEnded(w: World, es: seq<Event>, k: Key, u: Uid)
    requires Inv(w) && u !in w.inits.ran && Ran(Run(w, es).inits, k, u)
    ensures Ended(w, es, k, u)
  {
    hide Inv, Grows, Step, ProcInv, ReplicaInv, CheckoutInv, Harmless, VolumeShape, HistoryInv;
    var n := |es| - 1;
    var v := Run(w, es[..n]);
    RunKeepsInv(w, es[..n]);
    StepKeepsInv(v, es[n]);
    StepGrows(v, es[n]);
    assert es == es[..n] + [es[n]];
    if u in v.inits.ran {
      RanNamed(v, u);
      GrowsNamed(v, Step(v, es[n]), u);
      RanMeansEnded(w, es[..n], k, u);
      EndedLater(w, es[..n], es[n], k, u);
    } else {
      StepRan(v, es[n], u);
      JobNamed(v, es[n].key);
      GrowsNamed(v, Step(v, es[n]), u);
      assert EndedAt(w, es, n, k, u);
    }
  }

  lemma StepGrows(w: World, e: Event)
    requires Inv(w)
    ensures Grows(w, Step(w, e))
  {
    hide Step, Core, Inv, Rely, Grows;
    StepKeepsInv(w, e);
  }

  // -------------------------------------------------------- before hand-out

  /** The claim u, named k, is marked available, or storage provisioned for it was
      taken by a checkout. */
  ghost predicate HandedOut(w: World, k: Key, u: Uid) {
    || (k in w.cluster.claims && w.cluster.claims[k].uid == u
        && !CheckoutOwned(w.cluster.claims[k]) && Marked(w.cluster.claims[k].annotations))
    || (exists x :: x in w.taken && x in w.origin && w.origin[x].claim == ClaimRef(k, u))
  }

  lemma HandedOutReadied(w: World, k: Key, u: Uid)
    requires Inv(w) && HandedOut(w, k, u)
    ensures Readied(w.inits, k, u) && InitsInv(w.inits, w.cluster.next)
  {
    hide ProcInv, CheckoutInv, ReplicaInv, VolumesInv;
    if k in w.cluster.claims && w.cluster.claims[k].uid == u
       && !CheckoutOwned(w.cluster.claims[k]) && Marked(w.cluster.claims[k].annotations) {
      assert ClaimShape(w, k, w.cluster.claims[k]);
    } else {
      var x :| x in w.taken && x in w.origin && w.origin[x].claim == ClaimRef(k, u);
      assert Handed(w, x, w.taken[x].pool, w.taken[x].replica);
    }
    hide Readied;
  }

  /** Over every run from an empty cluster: before a claim is marked available or its
      storage is taken, its own init job ended with success or, if it was marked on a
      job that it found under its name, that other claim's job did. */
  lemma InitBeforeHandOut(w0: World, es: seq<Event>, k: Key, u: Uid)
    requires Init(w0) && HandedOut(Run(w0, es), k, u)
    ensures var i := Run(w0, es).inits;
      Ended(w0, es, k, u) || (u in i.borrowed && i.borrowed[u] != u && Ended(w0, es, k, i.borrowed[u]))
  {
    hide Run, Inv, HandedOut, ProcInv, CheckoutInv, ReplicaInv, VolumeShape, HistoryInv;
    InitInv(w0);
    RunKeepsInv(w0, es);
    var i := Run(w0, es).inits;
    HandedOutReadied(Run(w0, es), k, u);
    if u in i.ran {
      RanMeansEnded(w0, es, k, u);
    } else {
      RanMeansEnded(w0, es, k, i.borrowed[u]);
    }
  }

  // ------------------------------------------------------ whose job it was

  /** The replica in memory whose call the step makes. */
  function Marker(w: World, e: Event): ReplicaProc {
    Mem(w, if e.AdvanceReplica? then e.id else 0)
  }

  /** The step marks a claim available on the success of the job read with it. */
  ghost predicate Marks(w: World, e: Event) {
    && e.AdvanceReplica? && e.fault.None? && e.id in w.replicas
    && var p := Marker(w, e);
    && p.pc == PersistClaim && p.mem.job.outcome == Succeeded && Marked(p.mem.claim.annotations)
    && !MarkedAt(w.cluster, p.mem.key)
    && ServePutClaim(w.cluster, p.mem.key, p.mem.claim).1.StoredClaim?
  }

  /** The UID of the claim that is marked. */
  ghost function MarkedUid(w: World, e: Event): Uid {
    var p := Marker(w, e);
    var r := ServePutClaim(w.cluster, p.mem.key, p.mem.claim).1;
    if r.StoredClaim? then r.claim.uid else 0
  }

  /** The job that was loaded is owned by the claim that was loaded: a controller
      could look at that before it marks the claim. */
  predicate OwnJob(r: Replica) {
    r.job.owner == r.claim.uid
  }

  /** The step marks a claim on the success of a job that is another claim's. */
  ghost predicate Borrows(w: World, e: Event) {
    Marks(w, e) && !OwnJob(Marker(w, e).mem)
  }

  /** What such a step leaves. */
  ghost predicate MarkNoted(w: World, e: Event, i: Inits) {
    && Marks(w, e)
    && var p := Marker(w, e);
    i == Noted(w, p, ServePutClaim(w.cluster, p.mem.key, p.mem.claim).1)
  }

  lemma StepMarks(w: World, e: Event)
    requires Marks(w, e)
    ensures MarkNoted(w, e, Step(w, e).inits)
  {
    hide Step, Noted, ServePutClaim;
    StepInits(w, e);
  }

  /** Marking on the claim's own job is sound; marking on another's is borrowing. */
  lemma MarkedOnOwnJob(w: World, e: Event)
    requires Inv(w) && Marks(w, e)
    ensures var (r, u, i) := (Marker(w, e).mem, MarkedUid(w, e), Step(w, e).inits);
      && (OwnJob(r) ==> Ran(i, r.key, u) && i.borrowed == w.inits.borrowed)
      && (!OwnJob(r) ==> u in i.borrowed)
  {
    hide Step, Inv, ServePutClaim;
    var p := w.replicas[e.id];
    StepMarks(w, e);
    MarkFacts(w, e.id);
    PutUid(w.cluster, p.mem.key, p.mem.claim);
  }

  lemma MarkFacts(w: World, id: nat)
    requires Inv(w) && id in w.replicas && Mem(w, id).mem.job.outcome == Succeeded
    ensures var r := Mem(w, id).mem;
      Ran(w.inits, r.key, r.job.owner) && 0 < r.job.owner < w.cluster.next
  {
    hide ProcInv, CheckoutInv, VolumeShape, VolumesInv, ClaimsInv;
    assert ReplicaInv(w, w.replicas[id]);
    hide Handed;
  }

  /** Nothing else is borrowing. */
  lemma StepBorrowed(w: World, e: Event)
    requires Inv(w) && !Borrows(w, e)
    ensures Step(w, e).inits.borrowed == w.inits.borrowed
  {
    hide Step, Inv, Called, ServePutClaim;
    StepInits(w, e);
    if Marks(w, e) {
      MarkedOnOwnJob(w, e);
    } else if e.AdvanceReplica? && e.id in w.replicas && NextReplicaCall(w.replicas[e.id]).Some? {
      NotMarked(w, e, NextReplicaCall(w.replicas[e.id]).value);
    }
  }

  lemma NotMarked(w: World, e: Event, req: Request)
    requires e.AdvanceReplica? && e.id in w.replicas && !Marks(w, e)
    requires NextReplicaCall(Mem(w, e.id)) == Some(req)
    ensures Noted(w, Mem(w, e.id), Called(w, req, e.fault, []).1).borrowed == w.inits.borrowed
  {
    hide ServePutClaim;
    var p := w.replicas[e.id];
    if p.pc == PersistClaim {
      PutUid(w.cluster, p.mem.key, p.mem.claim);
    }
    hide MarkedAt;
  }

  /** In this run every claim is marked on its own job. */
  ghost predicate OwnJobsOnly(w: World, es: seq<Event>) {
    forall i | 0 <= i < |es| :: !Borrows(Run(w, es[..i]), es[i])
  }

  /** What the record of borrowed jobs is for: it is empty as long as every time a claim
      was marked the job read was owned by the claim read, and only then. */
  lemma {:induction false} NoneBorrowed(w0: World, es: seq<Event>)
    requires Init(w0)
    ensures Run(w0, es).inits.borrowed == map[] <==> OwnJobsOnly(w0, es)
  {
    hide Step, Inv, Marks, OwnJobsOnly, ProcInv, CheckoutInv, ReplicaInv, VolumeShape, HistoryInv, MarkedUid;
    if es == [] {
      OwnJobsNone(w0);
    } else {
      var n := |es| - 1;
      var v := Run(w0, es[..n]);
      NoneBorrowed(w0, es[..n]);
      InitInv(w0);
      RunKeepsInv(w0, es[..n]);
      OwnJobsSplit(w0, es);
      if Borrows(v, es[n]) {
        MarkedOnOwnJob(v, es[n]);
      } else {
        StepBorrowed(v, es[n]);
      }
    }
  }

  lemma OwnJobsNone(w: World)
    ensures OwnJobsOnly(w, [])
  {
    hide Run, Borrows;
  }

  lemma OwnJobsSplit(w: World, es: seq<Event>)
    requires es != []
    ensures var n := |es| - 1; OwnJobsOnly(w, es) <==> (OwnJobsOnly(w, es[..n]) && !Borrows(Run(w, es[..n]), es[n]))
  {
    hide Run, Borrows;
    var n := |es| - 1;
    forall i | 0 <= i < n ensures es[..n][..i] == es[..i] && es[..n][i] == es[i] {
    }
  }

  /** In such a run, what is marked available or was taken had its own init job end
      with success before. */
  lemma OwnInitBeforeHandOut(w0: World, es: seq<Event>, k: Key, u: Uid)
    requires Init(w0) && OwnJobsOnly(w0, es) && HandedOut(Run(w0, es), k, u)
    ensures Ended(w0, es, k, u)
  {
    hide Run, HandedOut, OwnJobsOnly, Ended;
    NoneBorrowed(w0, es);
    InitBeforeHandOut(w0, es, k, u);
  }

  /** And so what a checkout acquires is storage that was provisioned for a claim whose
      own init job ended with success before. */
  lemma AcquiredInitialized(w0: World, es: seq<Event>, c: Uid)
    requires Init(w0) && OwnJobsOnly(w0, es) && BoundFinal(Run(w0, es), c)
    ensures var w := Run(w0, es);
      var f := FinalClaim(w, c);
      && f.spec.volumeName.Some? && f.spec.volumeName.value in w.cluster.volumes
      && var x := w.cluster.volumes[f.spec.volumeName.value].spec.handle;
      && x in w.origin && x in w.taken && w.taken[x].checkout == c && x !in w.destroyed
      && Ended(w0, es, w.origin[x].claim.key, w.origin[x].claim.uid)
  {
    hide Run, OwnJobsOnly;
    var w := Run(w0, es);
    assert Reachable(w);
    hide Reachable, Ended, Handed;
    Acquired(w, c);
    var x := w.cluster.volumes[FinalClaim(w, c).spec.volumeName.value].spec.handle;
    OwnInitBeforeHandOut(w0, es, w.origin[x].claim.key, w.origin[x].claim.uid);
  }
}
