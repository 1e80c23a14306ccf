/** When a pool may delete a claim that somebody else owns: the exact condition. */
module PoolDeletes {
  import opened Labels
  import opened Kube
  import opened Replica
  import opened World
  import opened HandoffInvariant
  import opened HandoffRuns
  import opened Selection
  import opened NonInterference
  import opened ReplicaSteps

  /** The claim under the name of replica `id`. */
  function Claimed(w: World, id: nat): Claim {
    ClaimAt(w.cluster, Mem(w, id).mem.key)
  }

  /** The claim that replica `id` read, and is about to delete, still stands. */
  predicate Stands(w: World, id: nat) {
    var (p, c) := (Mem(w, id), Claimed(w, id));
    && id in w.replicas && p.pc == DeleteClaim
    && p.mem.key in w.cluster.claims && c.uid == p.mem.claim.uid && !c.deleting
  }

  /** The claim under the name of replica `id` is controlled by somebody else. */
  predicate OwnedElsewhere(w: World, id: nat) {
    Claimed(w, id).controller != None && Claimed(w, id).controller != Some(PoolOwner(Mem(w, id).pool.uid))
  }

  /** The next call for replica `id` deletes a claim that somebody else owns. */
  ghost predicate Strikes(w: World, id: nat) {
    && id in w.replicas && Mem(w, id).pc == DeleteClaim && OwnedElsewhere(w, id)
    && Differs(w.cluster, Step(w, AdvanceReplica(id, None)).cluster, Mem(w, id).mem.key)
  }

  /** It may come to that: some continuation leads there with replica `id` waiting. */
  ghost predicate MayStrike(w: World, id: nat) {
    exists es :: Mem(Run(w, es), id) == Mem(w, id) && Strikes(Run(w, es), id)
  }

  // ------------------------------------------------------- owners are for good

  lemma ReachableOwners(w: World)
    requires Reachable(w)
    ensures Inv(w) && OwnersInv(w)
  {
    hide Run, ProcInv, CheckoutInv, ReplicaInv, VolumeShape, HistoryInv, Inv;
    var w0: World, es: seq<Event> :| Init(w0) && w == Run(w0, es);
    RunKeepsOwners(w0, es);
  }

  /** If the claim with UID u at k is there it is owned by o. */
  ghost predicate OwnedIfThere(w: World, k: Key, u: Uid, o: Owner) {
    && u < w.cluster.next
    && (k in w.cluster.claims && w.cluster.claims[k].uid == u ==> w.cluster.claims[k].controller == Some(o))
  }

  lemma OwnedStep(w: World, w': World, k: Key, u: Uid, o: Owner)
    requires OwnersKept(w, w') && OwnedIfThere(w, k, u, o)
    ensures OwnedIfThere(w', k, u, o)
  {
    if k in w'.cluster.claims && k in w.cluster.claims {
      assert KeptClaim(w, w', k);
    }
  }

  /** An owner keeps a claim for as long as there is one with that UID. */
  lemma {:induction false} OwnerStays(w: World, es: seq<Event>, k: Key, u: Uid, o: Owner)
    requires Reachable(w) && OwnedIfThere(w, k, u, o)
    ensures OwnedIfThere(Run(w, es), k, u, o)
  {
    hide Reachable, Step, OwnedIfThere, Inv, OwnersInv, OwnersKept, ProcInv, Core, ReplicaInv;
    if es != [] {
      var n := |es| - 1;
      var v := Run(w, es[..n]);
      OwnerStays(w, es[..n], k, u, o);
      ReachableRun(w, es[..n]);
      ReachableOwners(v);
      StepKept(v, es[n]);
      OwnedStep(v, Step(v, es[n]), k, u, o);
    }
  }

  // ------------------------------------------------------------ another pool

  /** A pool that has its eye on the claim: its selector matches and its template
      asks for the labels the claim has. */
  function Rival(pool: Pool, k: Key, c: Claim): Pool {
    Pool(Key(k.namespace, "rival"), pool.uid + 1,
         PoolSpec(None, Selector(c.labels, []), Template(c.labels, map[], EMPTY_CLAIM_SPEC), None))
  }

  /** The claim at k is still the one it was, but for labels, annotations, owner. */
  ghost predicate SameClaimAt(w: World, w': World, k: Key) {
    && k in w.cluster.claims && k in w'.cluster.claims
    && w'.cluster.claims[k].uid == w.cluster.claims[k].uid
    && w'.cluster.claims[k].deleting == w.cluster.claims[k].deleting
  }

  lemma PutBack(s: Cluster, k: Key, c: Claim)
    requires k in s.claims && c.uid != 0
    requires var o := ClaimAt(s, k); c.uid == o.uid && c.rv == o.rv && c.spec == o.spec
    ensures var s' := ServePutClaim(s, k, c).0;
      && k in s'.claims && ClaimAt(s', k).uid == c.uid && ClaimAt(s', k).deleting == ClaimAt(s, k).deleting
      && ClaimAt(s', k).controller == c.controller
  {
  }

  /** The claim is written as it was read, with its new owner. */
  lemma PutStep(w: World, id: nat) returns (w': World)
    requires id in w.replicas && Mem(w, id).pc == PersistClaim
    requires var (c, s) := (Mem(w, id).mem.claim, Claimed(w, id));
      Mem(w, id).mem.key in w.cluster.claims && c.uid != 0 && c.uid == s.uid && c.rv == s.rv && c.spec == s.spec
    ensures w' == Step(w, AdvanceReplica(id, None)) && Elsewhere(w, w', id)
    ensures SameClaimAt(w, w', Mem(w, id).mem.key)
    ensures ClaimAt(w'.cluster, Mem(w, id).mem.key).controller == Mem(w, id).mem.claim.controller
  {
    hide Step, ResumeReplica, ServePutClaim, Noted;
    var p := w.replicas[id];
    PutBack(w.cluster, p.mem.key, p.mem.claim);
    Answered(w, id, PutClaim(p.mem.key, p.mem.claim));
    w' := Step(w, AdvanceReplica(id, None));
  }

  /** A claim that was read unowned is about to be made the pool's own. */
  ghost predicate AboutToOwn(w: World, id: nat, pool: Pool, k: Key) {
    && id in w.replicas && k in w.cluster.claims && w.cluster.claims[k].uid != 0
    && var p := w.replicas[id];
    && (p.pc == PersistDropJob || p.pc == PersistClaim) && p.mem.key == k
    && p.mem.job.uid == JobAt(w.cluster, k).uid
    && var c := w.cluster.claims[k];
    && p.mem.claim.uid == c.uid && p.mem.claim.rv == c.rv && p.mem.claim.spec == c.spec
    && p.mem.claim.controller == Some(PoolOwner(pool.uid))
  }

  lemma BeginOwning(w: World, id: nat, pool: Pool, k: Key)
    requires id in w.replicas && ReadAt(w.cluster, Mem(w, id), pool, k)
    requires k in w.cluster.claims && ClaimAt(w.cluster, k).uid != 0 && ClaimAt(w.cluster, k).controller == None
    ensures var w' := Step(w, PersistReplica(id));
      AboutToOwn(w', id, pool, k) && OnlyReplica(w, w', id)
  {
    hide Persisting, JobAt, ReplicaAt, Step, ConfiguredReplica;
    Idled(w, id);
    PersistingSame(w.replicas[id]);
  }

  lemma Owned(w: World, id: nat, pool: Pool, k: Key) returns (es: seq<Event>, w': World)
    requires AboutToOwn(w, id, pool, k)
    ensures w' == Run(w, es) && Elsewhere(w, w', id) && SameClaimAt(w, w', k)
    ensures ClaimAt(w'.cluster, k).controller == Some(PoolOwner(pool.uid))
  {
    hide Run, Step, JobAt;
    var a := AdvanceReplica(id, None);
    RunNothing(w);
    RunSnoc(w, [], a);
    es := [] + [a];
    if w.replicas[id].pc == PersistDropJob {
      var v := DropStep(w, id);
      w' := PutStep(v, id);
      RunSnoc(w, es, a);
      es := es + [a];
    } else {
      w' := PutStep(w, id);
    }
  }

  /** An unowned claim may become another pool's at any time. */
  lemma TakeOver(w: World, id: nat, rival: Pool, k: Key) returns (es: seq<Event>, w': World)
    requires Inv(w) && PHASE_KEY !in rival.spec.template.annotations
    requires k in w.cluster.claims && ClaimAt(w.cluster, k).controller == None && ClaimAt(w.cluster, k).uid != 0
    ensures w' == Run(w, es) && Elsewhere(w, w', id) && SameClaimAt(w, w', k)
    ensures ClaimAt(w'.cluster, k).controller == Some(PoolOwner(rival.uid))
  {
    hide Inv, Run, Step, Referring, AboutToOwn, ReadAt, ProcInv, CheckoutInv, ReplicaInv, VolumeShape, HistoryInv;
    InvRefers(w);
    var a, w1 := LoadAll(w, id, rival, k);
    BeginOwning(w1, id, rival, k);
    var w2 := Step(w1, PersistReplica(id));
    RunSnoc(w, a, PersistReplica(id));
    var b;
    b, w' := Owned(w2, id, rival, k);
    es := a + [PersistReplica(id)] + b;
    RunThen(w, a + [PersistReplica(id)], b);
  }

  // ----------------------------------------------------------- the exact condition

  lemma StandingStrikes(w: World, id: nat)
    requires Stands(w, id) && OwnedElsewhere(w, id)
    ensures Strikes(w, id)
  {
    hide Step, ResumeReplica, ServePutClaim;
    var p := w.replicas[id];
    Answered(w, id, DropClaim(p.mem.key, p.mem.claim.uid));
    hide Noted;
  }

  lemma StrikeMeansUnowned(w: World, es: seq<Event>, id: nat)
    requires Reachable(w) && Stands(w, id)
    requires Mem(Run(w, es), id) == Mem(w, id) && Strikes(Run(w, es), id)
    ensures Mem(w, id).mem.claim.controller == None && Claimed(w, id).controller != Some(PoolOwner(Mem(w, id).pool.uid))
  {
    hide Reachable, Step, Inv, Run, ProcInv, CheckoutInv, ReplicaInv, VolumeShape, HistoryInv, VolumesInv;
    var (p, w') := (w.replicas[id], Run(w, es));
    var (k, o) := (p.mem.key, PoolOwner(p.pool.uid));
    ReachableRun(w, es);
    PoolTouchesOwn(w', id, None, k);
    if w.cluster.claims[k].controller == Some(o) {
      ReachableInv(w);
      assert ClaimShape(w, k, w.cluster.claims[k]) by {
        assert Core(w) by {
          InvCore(w);
        }
      }
      OwnerStays(w, es, k, p.mem.claim.uid, o);
      assert false;
    }
  }

  lemma InvCore(w: World)
    requires Inv(w)
    ensures Core(w)
  {
    hide ProcInv, CheckoutInv, ReplicaInv, VolumeShape, HistoryInv, Core;
  }

  /** Exactly when: of a claim that still stands, a pool may come to delete it from
      under another owner if and only if it had read it unowned and has not become
      its owner since. */
  lemma StrikesExactly(w: World, id: nat)
    requires Reachable(w) && Stands(w, id)
    ensures var p := Mem(w, id);
      MayStrike(w, id) <==> p.mem.claim.controller == None && Claimed(w, id).controller != Some(PoolOwner(p.pool.uid))
  {
    hide Reachable, Step, Inv, Run, Strikes, OwnedElsewhere;
    var p := w.replicas[id];
    var c := w.cluster.claims[p.mem.key];
    if MayStrike(w, id) {
      var es :| Mem(Run(w, es), id) == Mem(w, id) && Strikes(Run(w, es), id);
      StrikeMeansUnowned(w, es, id);
    }
    if p.mem.claim.controller == None && c.controller != Some(PoolOwner(p.pool.uid)) {
      UnownedMayStrike(w, id);
    }
  }

  lemma UnownedMayStrike(w: World, id: nat)
    requires Reachable(w) && Stands(w, id)
    requires Claimed(w, id).controller != Some(PoolOwner(Mem(w, id).pool.uid))
    ensures MayStrike(w, id)
  {
    hide Reachable, Step, Inv, Run, Strikes, ProcInv, CheckoutInv, ReplicaInv, VolumeShape, HistoryInv, VolumesInv;
    var p := w.replicas[id];
    var k := p.mem.key;
    var c := w.cluster.claims[k];
    if c.controller == None {
      ReachableInv(w);
      assert c.uid != 0 by {
        InvCore(w);
        assert ClaimShape(w, k, c);
      }
      var es, w' := TakeOver(w, id + 1, Rival(p.pool, k, c), k);
      StandingStrikes(w', id);
      assert Strikes(Run(w, es), id);
    } else {
      StandingStrikes(w, id);
      RunNothing(w);
      assert Strikes(Run(w, []), id);
    }
  }

  /** What the controller can check: of a claim whose owner is still the one that was
      read, it may come to delete it from under another owner if and only if it read
      none. */
  lemma ReadDecides(w: World, id: nat)
    requires Reachable(w) && Stands(w, id)
    requires Claimed(w, id).controller == Mem(w, id).mem.claim.controller
    ensures MayStrike(w, id) <==> Mem(w, id).mem.claim.controller == None
  {
    hide Reachable, MayStrike;
    StrikesExactly(w, id);
  }

  /** It does happen, to any pool and under any name: a claim that nobody owns is
      created, the pool reads it and starts to delete it. */
  lemma UnownedReadIsNotEnough(pool: Pool, k: Key) returns (w: World)
    requires PHASE_KEY !in pool.spec.template.annotations
    ensures Reachable(w) && Stands(w, ID) && Mem(w, ID).pool == pool && Mem(w, ID).mem.key == k
    ensures MayStrike(w, ID)
  {
    hide StepAdvance, StepAdvanceReplica, ProcInv, CheckoutInv, StepChoose, ReplicaInv, VolumesInv,
      ConfiguredReplica, ClaimsInv, Persisting, MayStrike, StepRemoveClaim, StepReclaim, StepBind, StepMarkLost,
      Handed, StepProvision, Stands;
    EmptyReachable();
    var w1 := Step(EMPTY, CreateClaim(k, NEW_CLAIM));
    assert w1.cluster == EMPTY.cluster.(claims := map[k := NEW_CLAIM.(uid := 1, rv := 1, created := 1, phase := Pending)], next := 2);
    hide Reachable, Step, Inv, Run, ReadAt;
    ReachableStep(EMPTY, CreateClaim(k, NEW_CLAIM));
    var es, w2 := LoadAll(w1, ID, pool, k);
    ReachableRun(w1, es);
    w := StartsDeleting(w2, pool, k);
    UnownedMayStrike(w, ID);
  }

  lemma StartsDeleting(w: World, pool: Pool, k: Key) returns (w': World)
    requires Reachable(w) && ID in w.replicas && ReadAt(w.cluster, Mem(w, ID), pool, k) && k !in w.cluster.jobs
    requires k in w.cluster.claims && ClaimAt(w.cluster, k).controller == None
    requires ClaimAt(w.cluster, k).uid != 0 && !ClaimAt(w.cluster, k).deleting
    ensures Reachable(w') && Stands(w', ID) && w'.cluster == w.cluster
    ensures Mem(w', ID).pool == pool && Mem(w', ID).mem.key == k
  {
    hide Reachable, Step, ReplicaAt, ConfiguredReplica, Persisting;
    Idled(w, ID);
    w' := Step(w, DeleteReplica(ID));
    ReachableStep(w, DeleteReplica(ID));
  }
}
