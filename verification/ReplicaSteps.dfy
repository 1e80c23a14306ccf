/** What a pool controller does to one replica when nobody comes in between, as a
    stretch of a run. */
module ReplicaSteps {
  import opened Kube
  import opened Replica
  import opened World
  import opened HandoffInvariant
  import opened HandoffRuns
  import opened Selection

  /** Nothing but replica `id` in memory differs. */
  ghost predicate OnlyReplica(w: World, w': World, id: nat) {
    && id in w'.replicas
    && w' == w.(replicas := w.replicas[id := w'.replicas[id]])
  }

  lemma RunSnoc(w: World, es: seq<Event>, e: Event)
    ensures Run(w, es + [e]) == Step(Run(w, es), e)
  {
    hide Step;
    assert (es + [e])[..|es|] == es;
  }

  lemma RunNothing(w: World)
    ensures Run(w, []) == w
  {
    hide Step;
  }

  lemma {:induction false} RunThen(w: World, a: seq<Event>, b: seq<Event>)
    ensures Run(w, a + b) == Run(Run(w, a), b)
  {
    hide Step;
    if b == [] {
      assert a + b == a;
    } else {
      var n := |b| - 1;
      RunThen(w, a, b[..n]);
      assert a + b == (a + b[..n]) + [b[n]];
      RunSnoc(w, a + b[..n], b[n]);
    }
  }

  /** The empty cluster, without any checkout. */
  const EMPTY := World(Cluster(map[], map[], map[], map[], 1), map[], map[], map[], map[], map[], map[], NOBODY, {})

  /** One replica in the hands of a pool is enough for an example. */
  const ID: nat := 0

  lemma EmptyReachable()
    ensures Reachable(EMPTY) && Inv(EMPTY)
  {
    hide Run, ProcInv, CheckoutInv, ReplicaInv, VolumeShape, HistoryInv, Inv;
    RunNothing(EMPTY);
    assert Init(EMPTY) && EMPTY == Run(EMPTY, []);
    InitInv(EMPTY);
  }

  lemma Begun(w: World, id: nat, pool: Pool, k: Key)
    requires PHASE_KEY !in pool.spec.template.annotations
    ensures Step(w, BeginReplica(id, pool, k)) == w.(replicas := w.replicas[id := StartReplica(pool, k)])
  {
    hide StepAdvance, StepAdvanceReplica, StepChoose, ConfiguredReplica, Persisting, StepAround;
  }

  /** One answered call, spelled out. */
  lemma Answered(w: World, id: nat, req: Request)
    requires id in w.replicas && NextReplicaCall(Mem(w, id)) == Some(req)
    ensures var (s, r) := Serve(w.cluster, req, []);
      Step(w, AdvanceReplica(id, None))
        == w.(cluster := s, replicas := w.replicas[id := ResumeReplica(Mem(w, id), r)], inits := Noted(w, Mem(w, id), r))
  {
    hide Serve, NextReplicaCall, ResumeReplica, Noted, StepAdvance, StepChoose, ConfiguredReplica, Persisting,
      StepAround;
  }

  lemma Idled(w: World, id: nat)
    requires id in w.replicas && Idle(Mem(w, id))
    ensures Step(w, ConfigureReplica(id))
         == WithReplica(w, id, Mem(w, id).(mem := ConfiguredReplica(Mem(w, id).pool.spec, Mem(w, id).mem)))
    ensures Step(w, PersistReplica(id)) == WithReplica(w, id, Persisting(Mem(w, id)))
    ensures MayOwn(Mem(w, id)) ==> Step(w, DeleteReplica(id)) == WithReplica(w, id, Deleting(Mem(w, id)))
  {
    hide ConfiguredReplica, Persisting, Deleting, StepAdvance, StepAdvanceReplica, StepChoose, StepAround;
  }

  /** What is in memory once everything is read. */
  ghost predicate ReadAt(s: Cluster, p: ReplicaProc, pool: Pool, k: Key) {
    && p.pool == pool && Idle(p) && p.mem.key == k
    && p.mem.job == JobAt(s, k)
    && p.mem.claim == (if k in s.claims then s.claims[k] else NEW_CLAIM)
    && (k !in s.claims ==> p.mem == NewReplica(k).(job := JobAt(s, k)))
    && (ReplicaAt(s, k).Some? ==> p.pc == Ready && p.mem == ReplicaAt(s, k).value)
  }

  /** A read changes nothing but what is in memory. */
  lemma ReadStep(w: World, id: nat, req: Request) returns (w': World)
    requires id in w.replicas && NextReplicaCall(Mem(w, id)) == Some(req)
    requires req.GetJob? || req.GetClaim? || req.GetVolume?
    ensures w' == Step(w, AdvanceReplica(id, None)) && OnlyReplica(w, w', id)
    ensures Mem(w', id) == ResumeReplica(Mem(w, id), Serve(w.cluster, req, []).1)
  {
    hide Step, ResumeReplica, ServePutClaim;
    Answered(w, id, req);
    w' := Step(w, AdvanceReplica(id, None));
  }

  lemma ReadJob(s: Cluster, pool: Pool, k: Key)
    ensures NextReplicaCall(StartReplica(pool, k)) == Some(GetJob(k))
    ensures ResumeReplica(StartReplica(pool, k), Serve(s, GetJob(k), []).1)
         == ReplicaProc(pool, LoadClaim, NewReplica(k).(job := JobAt(s, k)))
  {
    hide ServePutClaim;
  }

  lemma ReadClaim(s: Cluster, p: ReplicaProc, k: Key)
    requires p.pc == LoadClaim && p.mem == NewReplica(k).(job := JobAt(s, k))
    ensures NextReplicaCall(p) == Some(GetClaim(k))
    ensures var q := ResumeReplica(p, Serve(s, GetClaim(k), []).1);
      if k in s.claims && s.claims[k].phase == Bound then q == p.(pc := LoadVolume, mem := p.mem.(claim := s.claims[k]))
      else ReadAt(s, q, p.pool, k)
  {
    hide ServePutClaim;
  }

  lemma ReadVolume(s: Cluster, p: ReplicaProc, k: Key)
    requires Referring(s) && k in s.claims && s.claims[k].phase == Bound
    requires p.pc == LoadVolume && p.mem == NewReplica(k).(job := JobAt(s, k), claim := s.claims[k])
    ensures NextReplicaCall(p) == Some(GetVolume(p.mem.claim.spec.volumeName))
    ensures ReadAt(s, ResumeReplica(p, Serve(s, GetVolume(p.mem.claim.spec.volumeName), []).1), p.pool, k)
  {
    hide ServePutClaim;
  }

  lemma Extended(w: World, es: seq<Event>, id: nat, v: World, v': World)
    requires v == Run(w, es) && OnlyReplica(w, v, id) && OnlyReplica(v, v', id)
    requires v' == Step(v, AdvanceReplica(id, None))
    ensures v' == Run(w, es + [AdvanceReplica(id, None)]) && OnlyReplica(w, v', id)
  {
    hide Run, Step;
    RunSnoc(w, es, AdvanceReplica(id, None));
  }

  /** Loading a replica. */
  lemma LoadAll(w: World, id: nat, pool: Pool, k: Key) returns (es: seq<Event>, w': World)
    requires Referring(w.cluster) && PHASE_KEY !in pool.spec.template.annotations
    ensures w' == Run(w, es) && OnlyReplica(w, w', id) && ReadAt(w.cluster, Mem(w', id), pool, k)
  {
    hide Run, Step, Serve, ResumeReplica, NextReplicaCall, ReadAt, Referring;
    Begun(w, id, pool, k);
    RunNothing(w);
    RunSnoc(w, [], BeginReplica(id, pool, k));
    es := [] + [BeginReplica(id, pool, k)];
    var w1 := Step(w, BeginReplica(id, pool, k));
    ReadJob(w.cluster, pool, k);
    var w2 := ReadStep(w1, id, GetJob(k));
    Extended(w, es, id, w1, w2);
    es := es + [AdvanceReplica(id, None)];
    ReadClaim(w.cluster, w2.replicas[id], k);
    w' := ReadStep(w2, id, GetClaim(k));
    Extended(w, es, id, w2, w');
    es := es + [AdvanceReplica(id, None)];
    if k in w.cluster.claims && w.cluster.claims[k].phase == Bound {
      ReadVolume(w.cluster, w'.replicas[id], k);
      var w3 := w';
      w' := ReadStep(w3, id, GetVolume(w3.replicas[id].mem.claim.spec.volumeName));
      Extended(w, es, id, w3, w');
      es := es + [AdvanceReplica(id, None)];
    }
  }

  /** The other replicas in memory are as they were. */
  ghost predicate Elsewhere(w: World, w': World, id: nat) {
    forall i | i != id && i in w.replicas :: i in w'.replicas && w'.replicas[i] == w.replicas[i]
  }

  /** The job read with the claim is dropped first. */
  lemma DropStep(w: World, id: nat) returns (w': World)
    requires id in w.replicas && Mem(w, id).pc == PersistDropJob
    requires Mem(w, id).mem.job.uid == JobAt(w.cluster, Mem(w, id).mem.key).uid
    ensures w' == Step(w, AdvanceReplica(id, None)) && Elsewhere(w, w', id) && w'.cluster.claims == w.cluster.claims
    ensures w'.cluster.volumes == w.cluster.volumes && w'.origin == w.origin && w'.inits == w.inits
    ensures w'.cluster.jobs == w.cluster.jobs - {Mem(w, id).mem.key}
    ensures id in w'.replicas && Mem(w', id) == Mem(w, id).(pc := PersistClaim)
  {
    hide Step, ServePutClaim;
    var p := w.replicas[id];
    Answered(w, id, DropJob(p.mem.key, p.mem.job.uid));
    w' := Step(w, AdvanceReplica(id, None));
  }
}
