/** Why a controller would have to look at whose job it read: for any pool and under
    any name, a run in which a claim is made available that was never initialized. */
module BorrowedJobs {
  import opened Kube
  import opened Replica
  import opened World
  import opened HandoffInvariant
  import opened HandoffRuns
  import opened Selection
  import opened ReplicaSteps
  import opened Initialization

  /** The job under k, of claim a, stands like this. */
  predicate JobOf(s: Cluster, k: Key, a: Uid, outcome: JobOutcome) {
    && k in s.jobs && s.jobs[k].outcome == outcome && 0 < s.jobs[k].uid
    && s.jobs[k].owner == a && a < s.next
  }

  predicate OnlyClaim(s: Cluster, k: Key, a: Uid) {
    k in s.claims && s.claims == map[k := s.claims[k]] && !CheckoutOwned(s.claims[k]) && s.claims[k].uid == a
  }

  /** The pool created claim a under k and its init job runs. */
  ghost predicate Started(w: World, k: Key, a: Uid) {
    && Reachable(w) && w.inits.ran == {} && w.cluster.volumes == map[]
    && OnlyClaim(w.cluster, k, a) && JobOf(w.cluster, k, a, Running)
  }

  /** The job ended with success, and the claim is gone. */
  ghost predicate LeftBehind(w: World, k: Key, a: Uid) {
    && Reachable(w) && w.inits.ran == {a} && w.cluster.claims == map[] && w.cluster.volumes == map[]
    && JobOf(w.cluster, k, a, Succeeded)
  }

  /** A claim under k other than a, and the volume provisioned for it to which it is
      bound. */
  predicate Another(w: World, k: Key, a: Uid, x: Uid) {
    && k in w.cluster.claims && Provisioned(x) in w.cluster.volumes && x in w.origin
    && var c := w.cluster.claims[k];
    && c.uid != 0 && c.uid != a && c.annotations == map[] && !c.deleting && c.phase == Bound
    && c.spec.volumeName == Some(Provisioned(x))
    && w.cluster.volumes[Provisioned(x)].spec.claimRef == Some(ClaimRef(k, c.uid)) && w.origin[x].claim == ClaimRef(k, c.uid)
  }

  /** Another claim stands under that name, bound to a volume provisioned for it. */
  ghost predicate Replaced(w: World, k: Key, a: Uid, x: Uid) {
    && Reachable(w) && w.inits.ran == {a} && Another(w, k, a, x) && ClaimAt(w.cluster, k).controller == None
    && JobOf(w.cluster, k, a, Succeeded)
  }

  // ------------------------------------------------------- the claim's own job

  lemma Start(pool: Pool, k: Key) returns (w: World, a: Uid)
    requires PHASE_KEY !in pool.spec.template.annotations
    ensures Started(w, k, a)
  {
    hide Reachable, Step, Run, Inv, ReadAt, Referring;
    EmptyReachable();
    InvRefers(EMPTY);
    var es, w1 := LoadAll(EMPTY, ID, pool, k);
    ReachableRun(EMPTY, es);
    var w2 := Prepare(w1, pool, k);
    w, a := Create(w2, pool, k);
  }

  /** About to create: the claim and the job are the ones of a new replica. */
  ghost predicate Creating(w: World, pool: Pool, k: Key) {
    && Reachable(w) && ID in w.replicas
    && w.cluster == EMPTY.cluster && w.inits == NOBODY
    && var p := Mem(w, ID);
    && p.pool == pool && p.pc == PersistClaim && !Available(p.mem) && p.mem.key == k
    && p.mem.claim.uid == 0 && p.mem.claim.controller == Some(PoolOwner(pool.uid)) && p.mem.job.uid == 0
  }

  lemma Prepare(w: World, pool: Pool, k: Key) returns (w': World)
    requires Reachable(w) && OnlyReplica(EMPTY, w, ID) && ReadAt(w.cluster, Mem(w, ID), pool, k)
    ensures Creating(w', pool, k)
  {
    var r := ConfiguredReplica(pool.spec, NewReplica(k));
    NewConfigured(pool, k);
    hide Reachable, Step, ConfiguredReplica, Persisting, ReplicaAt, Available;
    assert Mem(w, ID).mem == NewReplica(k);
    Idled(w, ID);
    var w1 := Step(w, ConfigureReplica(ID));
    ReachableStep(w, ConfigureReplica(ID));
    Idled(w1, ID);
    w' := Step(w1, PersistReplica(ID));
    ReachableStep(w1, PersistReplica(ID));
    NewPersisting(pool, r);
    PersistingOf(Mem(w1, ID), ReplicaProc(pool, Ready, r));
    PersistingSame(Mem(w1, ID));
  }

  /** Persisting does not look at whether there was anything to load. */
  lemma PersistingOf(p: ReplicaProc, q: ReplicaProc)
    requires p.pool == q.pool && p.mem == q.mem && MayOwn(p)
    ensures Persisting(p) == Persisting(q)
  {
    hide Labelled, JobLabelled, Available;
  }

  lemma Create(w: World, pool: Pool, k: Key) returns (w': World, a: Uid)
    requires Creating(w, pool, k)
    ensures Started(w', k, a)
  {
    hide Reachable, Step, Available;
    Answered(w, ID, PutClaim(k, Mem(w, ID).mem.claim));
    var w1 := Step(w, AdvanceReplica(ID, None));
    ReachableStep(w, AdvanceReplica(ID, None));
    Answered(w1, ID, PutJob(k, Mem(w1, ID).mem.job));
    w' := Step(w1, AdvanceReplica(ID, None));
    ReachableStep(w1, AdvanceReplica(ID, None));
    a := w'.cluster.claims[k].uid;
  }

  // --------------------------------------------------- a job without its claim

  lemma Leave(w: World, k: Key, a: Uid) returns (w': World)
    requires Started(w, k, a)
    ensures LeftBehind(w', k, a)
  {
    hide Reachable, Step, StepPool, StepAround, OnlyClaim, JobOf;
    var w1 := Step(w, EndJob(k, Succeeded));
    StepParts(w, EndJob(k, Succeeded));
    JobDone(w, k, a);
    ReachableStep(w, EndJob(k, Succeeded));
    var w2 := Step(w1, RemoveClaim(k));
    StepParts(w1, RemoveClaim(k));
    ClaimMarked(w1, k, a);
    ReachableStep(w1, RemoveClaim(k));
    w' := Step(w2, FinalizeClaim(k));
    StepParts(w2, FinalizeClaim(k));
    ClaimGone(w2, k, a);
    ReachableStep(w2, FinalizeClaim(k));
  }

  lemma JobDone(w: World, k: Key, a: Uid)
    requires OnlyClaim(w.cluster, k, a) && JobOf(w.cluster, k, a, Running)
    ensures var w' := StepAround(w, EndJob(k, Succeeded));
      && OnlyClaim(w'.cluster, k, a) && JobOf(w'.cluster, k, a, Succeeded)
      && w'.cluster.volumes == w.cluster.volumes && w'.inits.ran == w.inits.ran + {a}
  {
    hide StepProvision, StepBind, StepMarkLost, StepReclaim, StepCreateClaim, StepEditClaim, StepRemoveClaim;
  }

  lemma ClaimMarked(w: World, k: Key, a: Uid)
    requires OnlyClaim(w.cluster, k, a) && JobOf(w.cluster, k, a, Succeeded)
    ensures var w' := StepAround(w, RemoveClaim(k));
      && OnlyClaim(w'.cluster, k, a) && JobOf(w'.cluster, k, a, Succeeded) && ClaimAt(w'.cluster, k).deleting
      && w'.cluster.volumes == w.cluster.volumes && w'.inits == w.inits
  {
    hide StepProvision, StepBind, StepMarkLost, StepReclaim, StepCreateClaim, StepEditClaim, StepEndJob;
  }

  lemma ClaimGone(w: World, k: Key, a: Uid)
    requires OnlyClaim(w.cluster, k, a) && JobOf(w.cluster, k, a, Succeeded) && ClaimAt(w.cluster, k).deleting
    ensures var w' := StepAround(w, FinalizeClaim(k));
      && w'.cluster.claims == map[] && JobOf(w'.cluster, k, a, Succeeded)
      && w'.cluster.volumes == w.cluster.volumes && w'.inits == w.inits
  {
    hide StepProvision, StepBind, StepMarkLost, StepReclaim, StepCreateClaim, StepEditClaim, StepEndJob, StepRemoveClaim;
  }

  // ------------------------------------------------------ a claim of that name

  lemma Replace(w: World, k: Key, a: Uid) returns (w': World, x: Uid)
    requires LeftBehind(w, k, a)
    ensures Replaced(w', k, a, x)
  {
    hide Reachable, Step, StepPool, StepAround, Fresh, Another, JobOf;
    var w1 := Step(w, CreateClaim(k, NEW_CLAIM));
    StepParts(w, CreateClaim(k, NEW_CLAIM));
    ClaimMade(w, k, a);
    ReachableStep(w, CreateClaim(k, NEW_CLAIM));
    var e := Provision(k, NEW_VOLUME.spec, map[], map[]);
    x := w1.cluster.next;
    var w2 := Step(w1, e);
    StepParts(w1, e);
    VolumeMade(w1, k, a);
    ReachableStep(w1, e);
    w' := Step(w2, Bind(k, Provisioned(x)));
    StepParts(w2, Bind(k, Provisioned(x)));
    ClaimBound(w2, k, a, x);
    ReachableStep(w2, Bind(k, Provisioned(x)));
  }

  /** A claim under k other than a, as it was created, and the job of a. */
  predicate Fresh(s: Cluster, k: Key, a: Uid) {
    && k in s.claims && s.claims[k].uid != 0 && s.claims[k].uid != a
    && s.claims[k] == NEW_CLAIM.(uid := s.claims[k].uid, rv := s.claims[k].rv, created := s.claims[k].created, phase := Pending)
    && JobOf(s, k, a, Succeeded)
  }

  lemma ClaimMade(w: World, k: Key, a: Uid)
    requires w.cluster.claims == map[] && JobOf(w.cluster, k, a, Succeeded)
    ensures var w' := StepAround(w, CreateClaim(k, NEW_CLAIM));
      Fresh(w'.cluster, k, a) && w'.inits.ran == w.inits.ran
  {
    hide StepProvision, StepBind, StepMarkLost, StepReclaim, StepEditClaim, StepEndJob, StepRemoveClaim;
  }

  /** The volume named x was provisioned for the claim under k. */
  predicate Serves(w: World, k: Key, x: Uid) {
    && Provisioned(x) in w.cluster.volumes && x in w.origin
    && var q := ClaimRef(k, ClaimAt(w.cluster, k).uid);
    w.cluster.volumes[Provisioned(x)].spec.claimRef == Some(q) && w.origin[x].claim == q
  }

  lemma VolumeMade(w: World, k: Key, a: Uid)
    requires Fresh(w.cluster, k, a)
    ensures var w' := StepAround(w, Provision(k, NEW_VOLUME.spec, map[], map[]));
      Fresh(w'.cluster, k, a) && Serves(w', k, w.cluster.next) && w'.inits == w.inits
  {
    hide StepCreateClaim, StepBind, StepMarkLost, StepReclaim, StepEditClaim, StepEndJob, StepRemoveClaim;
  }

  lemma ClaimBound(w: World, k: Key, a: Uid, x: Uid)
    requires Fresh(w.cluster, k, a) && Serves(w, k, x)
    ensures var w' := StepAround(w, Bind(k, Provisioned(x)));
      && Another(w', k, a, x) && ClaimAt(w'.cluster, k).controller == None && JobOf(w'.cluster, k, a, Succeeded)
      && w'.inits == w.inits
  {
    hide StepCreateClaim, StepProvision, StepMarkLost, StepReclaim, StepEditClaim, StepEndJob, StepRemoveClaim;
  }

  // -------------------------------------------------- marked on the other's job

  /** Volume x was provisioned for the claim u under k. */
  predicate For(w: World, x: Uid, k: Key, u: Uid) {
    x in w.origin && w.origin[x].claim == ClaimRef(k, u)
  }

  /** The pool's next write makes the claim under k available on the job of another
      claim, while its own never ran; its volume was provisioned for it. */
  ghost predicate Misled(w: World, pool: Pool, k: Key, x: Uid) {
    && Reachable(w) && ID in w.replicas && Mem(w, ID).pool == pool && Mem(w, ID).mem.key == k
    && Borrows(w, AdvanceReplica(ID, None))
    && var u := Mem(w, ID).mem.claim.uid;
    k in w.cluster.claims && ClaimAt(w.cluster, k).uid == u && u != 0 && u !in w.inits.ran && For(w, x, k, u)
  }

  /** The replica is on offer, and its claim's own init job never ran. */
  ghost predicate OfferedUninitialized(w: World, pool: Pool, k: Key, x: Uid) {
    && ReplicaAt(w.cluster, k).Some?
    && var r := ReplicaAt(w.cluster, k).value;
    && Available(r) && !Stale(r) && r.claim.controller == Some(PoolOwner(pool.uid))
    && r.volume.value.name == Provisioned(x) && For(w, x, k, r.claim.uid)
    && r.claim.uid !in w.inits.ran
  }

  /** In memory: the replaced claim, marked, with the job of claim a. */
  ghost predicate AboutToMark(w: World, pool: Pool, k: Key, a: Uid, x: Uid, pc: ReplicaPc) {
    && Reachable(w) && w.inits.ran == {a} && ID in w.replicas && Another(w, k, a, x)
    && var (c, p) := (ClaimAt(w.cluster, k), Mem(w, ID));
    && p.pool == pool && p.pc == pc && p.mem.key == k
    && p.mem.claim == c.(labels := p.mem.claim.labels, annotations := p.mem.claim.annotations,
                         controller := Some(PoolOwner(pool.uid)))
    && Marked(p.mem.claim.annotations)
    && p.mem.job.outcome == Succeeded && p.mem.job.owner == a
    && (pc == PersistDropJob ==> p.mem.job.uid == JobAt(w.cluster, k).uid)
    && (pc == PersistClaim ==> k !in w.cluster.jobs)
  }

  /** What the pool reads of the replaced claim: it is bound and not marked, and the job
      of a succeeded. */
  predicate ReadOver(s: Cluster, p: ReplicaProc, pool: Pool, k: Key, a: Uid) {
    && p.pool == pool && p.mem.key == k && Idle(p) && MayOwn(p)
    && !Stale(p.mem) && !Available(p.mem) && p.mem.volume.Some? && p.mem.claim == ClaimAt(s, k)
    && p.mem.claim.phase == Bound
    && p.mem.job == JobAt(s, k) && p.mem.job.outcome == Succeeded && p.mem.job.owner == a && p.mem.job.uid != 0
  }

  lemma ReadReplaced(w: World, p: ReplicaProc, pool: Pool, k: Key, a: Uid, x: Uid)
    requires Another(w, k, a, x) && ClaimAt(w.cluster, k).controller == None && JobOf(w.cluster, k, a, Succeeded)
    requires ReadAt(w.cluster, p, pool, k)
    ensures ReadOver(w.cluster, p, pool, k, a)
  {
  }

  lemma Mislead(w: World, pool: Pool, k: Key, a: Uid, x: Uid) returns (w': World)
    requires Replaced(w, k, a, x) && PHASE_KEY !in pool.spec.template.annotations
    ensures AboutToMark(w', pool, k, a, x, PersistDropJob)
  {
    hide Reachable, Step, Run, Inv, ConfiguredReplica, Persisting, Referring, ReadAt, JobOf, Stale, Available;
    ReachableInv(w);
    InvRefers(w);
    var es, w1 := LoadAll(w, ID, pool, k);
    ReadReplaced(w, Mem(w1, ID), pool, k, a, x);
    ReachableRun(w, es);
    Idled(w1, ID);
    var w2 := Step(w1, ConfigureReplica(ID));
    ReachableStep(w1, ConfigureReplica(ID));
    MarksReplica(pool.spec, Mem(w1, ID).mem);
    Idled(w2, ID);
    w' := Step(w2, PersistReplica(ID));
    ReachableStep(w2, PersistReplica(ID));
    KeepsMark(Mem(w2, ID));
    PersistingSame(Mem(w2, ID));
  }

  lemma MarksReplica(pool: PoolSpec, r: Replica)
    requires !Stale(r) && !Available(r) && r.claim.phase == Bound && r.job.outcome == Succeeded
    ensures ConfiguredReplica(pool, r) == r.(claim := r.claim.(annotations := r.claim.annotations[PHASE_KEY := AVAILABLE]))
  {
    hide Stale, Available;
  }

  lemma KeepsMark(p: ReplicaProc)
    requires MayOwn(p) && Marked(p.mem.claim.annotations) && p.mem.volume.Some? && p.mem.job.uid != 0
    requires PHASE_KEY !in p.pool.spec.template.annotations
    ensures var q := Persisting(p);
      q.pc == PersistDropJob && Marked(q.mem.claim.annotations) && q.mem.job == p.mem.job
  {
  }

  lemma DropOther(w: World, pool: Pool, k: Key, a: Uid, x: Uid) returns (w': World)
    requires AboutToMark(w, pool, k, a, x, PersistDropJob)
    ensures AboutToMark(w', pool, k, a, x, PersistClaim)
  {
    hide Reachable, Step, JobAt;
    ReachableStep(w, AdvanceReplica(ID, None));
    w' := DropStep(w, ID);
  }

  lemma MarksNow(w: World, pool: Pool, k: Key, a: Uid, x: Uid)
    requires AboutToMark(w, pool, k, a, x, PersistClaim)
    ensures Misled(w, pool, k, x) && OfferedUninitialized(Step(w, AdvanceReplica(ID, None)), pool, k, x)
  {
    hide Reachable, Step, ResumeReplica;
    Answered(w, ID, PutClaim(k, Mem(w, ID).mem.claim));
  }

  /** For any pool, under any name: a reachable state in which the pool marks a claim
      available whose own init job never ran, and then offers its volume. */
  lemma OtherJobIsNotEnough(pool: Pool, k: Key) returns (w: World, x: Uid)
    requires PHASE_KEY !in pool.spec.template.annotations
    ensures Misled(w, pool, k, x) && OfferedUninitialized(Step(w, AdvanceReplica(ID, None)), pool, k, x)
  {
    hide Step, Misled, OfferedUninitialized, AboutToMark, Replaced, LeftBehind, Started;
    var w1, a := Start(pool, k);
    var w2 := Leave(w1, k, a);
    var w3;
    w3, x := Replace(w2, k, a);
    var w4 := Mislead(w3, pool, k, a, x);
    w := DropOther(w4, pool, k, a, x);
    MarksNow(w, pool, k, a, x);
  }

  /** In a reachable state this pool marks a claim under this name, the job read with
      it being its own or not as `own` says. */
  ghost predicate MarksLike(w: World, e: Event, pool: Pool, k: Key, own: bool) {
    && Reachable(w) && Marks(w, e)
    && var p := Marker(w, e);
    p.pool == pool && p.mem.key == k && (OwnJob(p.mem) <==> own)
  }

  /** All such markings mark a claim whose own init job succeeded. */
  ghost predicate Sound(pool: Pool, k: Key, own: bool) {
    forall w, e | MarksLike(w, e, pool, k, own) :: MarkedUid(w, e) in w.inits.ran
  }

  /** Exactly when: for every pool and name, marking a claim available is sound in all
      reachable states if and only if the job that was read is owned by the claim that
      was read. */
  lemma OwnJobExactly(pool: Pool, k: Key, own: bool)
    requires PHASE_KEY !in pool.spec.template.annotations
    ensures Sound(pool, k, own) <==> own
  {
    hide Step, Reachable, Inv, Marks, OfferedUninitialized, ProcInv, Core, ReplicaInv, MarkedUid;
    if own {
      forall w, e | MarksLike(w, e, pool, k, own) ensures MarkedUid(w, e) in w.inits.ran {
        ReachableInv(w);
        OwnMarkRan(w, e);
      }
    } else {
      var w, x := OtherJobIsNotEnough(pool, k);
      MisledUid(w, pool, k, x);
      assert MarksLike(w, AdvanceReplica(ID, None), pool, k, own);
    }
  }

  lemma OwnMarkRan(w: World, e: Event)
    requires Inv(w) && Marks(w, e) && OwnJob(Marker(w, e).mem)
    ensures MarkedUid(w, e) in w.inits.ran
  {
    hide Inv;
    var p := w.replicas[e.id];
    MarkFacts(w, e.id);
  }

  lemma MisledUid(w: World, pool: Pool, k: Key, x: Uid)
    requires Misled(w, pool, k, x)
    ensures Reachable(w) && Marks(w, AdvanceReplica(ID, None)) && Mem(w, ID).pool == pool && Mem(w, ID).mem.key == k
    ensures !OwnJob(Mem(w, ID).mem) && MarkedUid(w, AdvanceReplica(ID, None)) !in w.inits.ran
  {
    hide Reachable;
  }
}
