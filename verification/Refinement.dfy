/** The controllers' code and the transition system speak of the same runs: what a
    checkout's reconcile holds after any stretch of a run, however much others did
    in between, is the automaton replayed on the answers that reconcile got. */
module Refinement {
  import opened Kube
  import opened Replica
  import opened Checkouts
  import opened World
  import opened HandoffInvariant
  import opened HandoffRuns
  import opened Client
  import opened CheckoutStates
  import opened ReplicaSteps

  /** In this stretch the reconcile of c only makes calls: it is not restarted, does
      not crash and is not at a choice. */
  predicate OnlyCalls(es: seq<Event>, c: Uid) {
    forall i | 0 <= i < |es| && Actor(es[i]) == Some(c) :: es[i].Advance?
  }

  /** The calls checkout c made in a run, with the answers it got. */
  ghost function CallsOf(w: World, es: seq<Event>, c: Uid): seq<Exchange> {
    if es == [] then []
    else
      var n := |es| - 1;
      var v, e, l := Run(w, es[..n]), es[n], CallsOf(w, es[..n], c);
      if e.Advance? && e.c == c && c in v.procs && NextCall(v.procs[c]).Some?
      then l + [Exchange(NextCall(v.procs[c]).value, Called(v, NextCall(v.procs[c]).value, e.fault, e.listing).1)]
      else l
  }

  lemma InvIdentified(w: World)
    requires Core(w)
    ensures Identified(w.cluster)
  {
    hide CheckoutInv;
    forall k | k in w.cluster.claims ensures w.cluster.claims[k].uid != 0 {
      assert ClaimShape(w, k, w.cluster.claims[k]);
    }
    forall n | n in w.cluster.volumes ensures w.cluster.volumes[n].uid != 0 {
      assert VolumeShape(w, n, w.cluster.volumes[n]);
    }
  }

  lemma OwnCall(v: World, c: Uid, p: Proc, req: Request, fault: Option<ApiError>, listing: seq<Key>)
    requires Find(v.procs, c) == Some(p) && NextCall(p) == Some(req)
    ensures Find(Step(v, Advance(c, fault, listing)).procs, c) == Some(Resume(p, Called(v, req, fault, listing).1))
  {
    hide NextCall, Called, Resume, StepPool, StepChoose;
  }

  lemma NoCall(v: World, e: Event, c: Uid, p: Proc)
    requires Find(v.procs, c) == Some(p) && (Actor(e) == Some(c) ==> e.Advance? && NextCall(p) == None)
    ensures Find(Step(v, e).procs, c) == Some(p)
  {
    hide NextCall, StepPool, Resume, Called, StepChoose;
    if Actor(e) != Some(c) {
      OtherProcs(v, e, c);
    }
  }

  lemma CalledFits(v: World, req: Request, fault: Option<ApiError>, listing: seq<Key>)
    requires Core(v)
    ensures Fits(req, Called(v, req, fault, listing).1)
  {
    hide Serve, CheckoutInv, VolumeShape, HistoryInv, Core;
    InvIdentified(v);
    hide Identified;
    ServeFits(v.cluster, req, listing);
  }

  lemma {:induction false} WorldReplays(w: World, es: seq<Event>, c: Uid)
    requires Inv(w) && c in w.procs && OnlyCalls(es, c)
    ensures c in Run(w, es).procs
    ensures ReplayProc(w.procs[c], CallsOf(w, es, c)) == Some(Run(w, es).procs[c])
  {
    hide Inv, Core, Step, NextCall, Called, Resume, Fits, ProcInv, CheckoutInv, ReplicaInv, VolumeShape, HistoryInv;
    if es != [] {
      var n := |es| - 1;
      var v, e, l := Run(w, es[..n]), es[n], CallsOf(w, es[..n], c);
      WorldReplays(w, es[..n], c);
      RunKeepsInv(w, es[..n]);
      InvCore(v);
      if e.Advance? && e.c == c && NextCall(v.procs[c]).Some? {
        var req := NextCall(v.procs[c]).value;
        OwnCall(v, c, v.procs[c], req, e.fault, e.listing);
        CalledFits(v, req, e.fault, e.listing);
        var x := Exchange(req, Called(v, req, e.fault, e.listing).1);
        assert CallsOf(w, es, c) == l + [x];
        assert (l + [x])[..|l|] == l;
      } else {
        NoCall(v, e, c, v.procs[c]);
        assert CallsOf(w, es, c) == l;
      }
    }
  }

  // ---------------------------------------------------- a whole reconcile's log

  /** Where the choice of a volume leaves the world: what x holds is configured and
      about to be written. */
  function Decided(w: World, c: Uid, x: Proc): World {
    w.(procs := w.procs[c := BeginPersist(x)])
  }

  /** Making the choice the code made is a step of the world. */
  lemma ChoiceIsStep(w: World, c: Uid, p: Proc, x: Proc) returns (i: nat)
    requires Find(w.procs, c) == Some(p) && Picks(p, x)
    ensures Step(w, Choose(c, i)) == Decided(w, c, x)
  {
    hide BeginPersist, StepAdvance, StepAdvanceReplica, ConfiguredReplica, Persisting, StepPool;
    var p := w.procs[c];
    i :| Oldest(p.scan.available, i) && x == Picked(p, p.scan.available[i]);
    hide Picked, Oldest, Chosen;
  }

  lemma BeginStarts(w: World, co: Checkout)
    requires Find(w.checkouts, co.uid) == Some(CheckoutKeys(co.lockedKey, co.claimKey))
    ensures Find(Step(w, Begin(co.uid, co.pool, co.accessModes)).procs, co.uid) == Some(StartProc(co))
  {
    hide StepAdvance, StepAdvanceReplica, StepChoose, ConfiguredReplica, Persisting, StepPool;
  }

  /** From the code to the world: take any log that a reconcile leaves.  If its
      answers, up to the choice and after it, are those the world gave while others
      made any steps of theirs in between, then beginning, those steps, the choice and
      those steps are one run of the world, and it ends with checkout c holding what
      the reconcile ended with. */
  lemma ReconcileIsRun(w: World, co: Checkout, first: seq<Event>, second: seq<Event>,
                       before: seq<Exchange>, mid: seq<Exchange>, after: seq<Exchange>, x: Option<Proc>, failed: bool)
    returns (es: seq<Event>)
    requires Inv(w) && co.uid in w.checkouts && w.checkouts[co.uid] == CheckoutKeys(co.lockedKey, co.claimKey)
    requires before <= mid <= after && Follows(co, before, mid, after, x, failed)
    requires OnlyCalls(first, co.uid) && OnlyCalls(second, co.uid)
    requires var w1 := Step(w, Begin(co.uid, co.pool, co.accessModes));
      && CallsOf(w1, first, co.uid) == mid[|before|..]
      && (x.Some? ==> CallsOf(Decided(Run(w1, first), co.uid, x.value), second, co.uid) == after[|mid|..])
    ensures exists choice: seq<Event> ::
      && es == [Begin(co.uid, co.pool, co.accessModes)] + first + choice + (if x.Some? then second else [])
      && (choice == [] || (x.Some? && |choice| == 1 && choice[0].Choose? && choice[0].c == co.uid))
    ensures var w' := Run(w, es);
      && co.uid in w'.procs
      && (if x.None? then w'.procs[co.uid].pc == Abandoned
          else ProcAfter(BeginPersist(x.value), mid, after) == Some(w'.procs[co.uid]))
    ensures var w' := Run(w, es); w'.procs[co.uid].pc == (if failed then Abandoned else Finished)
  {
    hide Inv, Step, Run, CallsOf, ReplayProc, OnlyCalls, BeginPersist, Picks, StartProc, ProcInv, ReplicaInv,
      CheckoutInv, Extends, VolumeShape, HistoryInv, Core, Rely;
    var c := co.uid;
    var b := Begin(c, co.pool, co.accessModes);
    var w1 := Step(w, b);
    BeginStarts(w, co);
    StepKeepsInv(w, b);
    WorldReplays(w1, first, c);
    var v := Run(w1, first);
    RunNothing(w);
    RunSnoc(w, [], b);
    assert [] + [b] == [b];
    RunThen(w, [b], first);
    es := [b] + first;
    ghost var choice := [];
    if x.Some? {
      if v.procs[c] == BeginPersist(x.value) {
        assert Decided(v, c, x.value) == v;
      } else {
        var i := ChoiceIsStep(v, c, v.procs[c], x.value);
        choice := [Choose(c, i)];
        RunSnoc(w, es, Choose(c, i));
      }
      RunKeepsInv(w, es + choice);
      assert es + [] == es;
      WorldReplays(Decided(v, c, x.value), second, c);
      RunThen(w, es + choice, second);
      es := es + choice + second;
    } else {
      assert es == [b] + first + choice + [];
    }
  }

  // ------------------------------------------------------------------ replicas

  /** The replica in memory that a step is about, if any. */
  function About(e: Event): Option<nat> {
    match e
    case BeginReplica(id, _, _) => Some(id)
    case AdvanceReplica(id, _) => Some(id)
    case ConfigureReplica(id) => Some(id)
    case PersistReplica(id) => Some(id)
    case DeleteReplica(id) => Some(id)
    case CrashReplica(id) => Some(id)
    case _ => None
  }

  /** In this stretch only calls are made for replica id. */
  predicate OnlyReplicaCalls(es: seq<Event>, id: nat) {
    forall i | 0 <= i < |es| && About(es[i]) == Some(id) :: es[i].AdvanceReplica?
  }

  /** The calls made for replica id in a run, with the answers they got. */
  ghost function ReplicaCallsOf(w: World, es: seq<Event>, id: nat): seq<Exchange> {
    if es == [] then []
    else
      var n := |es| - 1;
      var v, e, l := Run(w, es[..n]), es[n], ReplicaCallsOf(w, es[..n], id);
      if e.AdvanceReplica? && e.id == id && id in v.replicas && NextReplicaCall(v.replicas[id]).Some?
      then l + [Exchange(NextReplicaCall(v.replicas[id]).value,
                         Called(v, NextReplicaCall(v.replicas[id]).value, e.fault, []).1)]
      else l
  }

  lemma OwnReplicaCall(v: World, id: nat, p: ReplicaProc, req: Request, fault: Option<ApiError>)
    requires Find(v.replicas, id) == Some(p) && NextReplicaCall(p) == Some(req)
    ensures Find(Step(v, AdvanceReplica(id, fault)).replicas, id) == Some(ResumeReplica(p, Called(v, req, fault, []).1))
  {
    hide NextReplicaCall, Called, ResumeReplica, Noted, StepAdvance, StepAround, StepChoose, ConfiguredReplica,
      Persisting;
  }

  lemma NoReplicaCall(v: World, e: Event, id: nat, p: ReplicaProc)
    requires Find(v.replicas, id) == Some(p)
    requires About(e) == Some(id) ==> e.AdvanceReplica? && NextReplicaCall(p) == None
    ensures Find(Step(v, e).replicas, id) == Some(p)
  {
    hide NextReplicaCall, ConfiguredReplica, Persisting, Deleting, StartReplica, Called, ResumeReplica, Noted, Idle,
      MayOwn, StepAdvance, StepAround, StepChoose;
    if Actor(e).Some? {
      CheckoutReplicas(v, e);
    } else if !ByPool(e) {
      OutsideProcs(v, e);
    }
  }

  /** The same of a replica in the hands of a pool: loaded, persisted or deleted, what
      is in memory is its automaton replayed on the answers it got. */
  lemma {:induction false} ReplicaReplays(w: World, es: seq<Event>, id: nat)
    requires Inv(w) && id in w.replicas && OnlyReplicaCalls(es, id)
    ensures id in Run(w, es).replicas
    ensures ReplayReplica(w.replicas[id], ReplicaCallsOf(w, es, id)) == Some(Run(w, es).replicas[id])
  {
    hide Inv, Core, Step, NextReplicaCall, Called, ResumeReplica, Fits, ProcInv, CheckoutInv, ReplicaInv,
      VolumeShape, HistoryInv;
    if es != [] {
      var n := |es| - 1;
      var v, e, l := Run(w, es[..n]), es[n], ReplicaCallsOf(w, es[..n], id);
      ReplicaReplays(w, es[..n], id);
      RunKeepsInv(w, es[..n]);
      InvCore(v);
      if e.AdvanceReplica? && e.id == id && NextReplicaCall(v.replicas[id]).Some? {
        var req := NextReplicaCall(v.replicas[id]).value;
        OwnReplicaCall(v, id, v.replicas[id], req, e.fault);
        CalledFits(v, req, e.fault, []);
        var x := Exchange(req, Called(v, req, e.fault, []).1);
        assert ReplicaCallsOf(w, es, id) == l + [x];
        assert (l + [x])[..|l|] == l;
      } else {
        NoReplicaCall(v, e, id, v.replicas[id]);
        assert ReplicaCallsOf(w, es, id) == l;
      }
    }
  }

  lemma InvCore(w: World)
    requires Inv(w)
    ensures Core(w)
  {
    hide ProcInv, CheckoutInv, ReplicaInv, VolumeShape, HistoryInv, Core;
  }

  /** From the code to the world: the calls by which a pool persists a replica, with
      answers the world gave while others made steps of theirs in between, end in the
      world with the replica holding what the code holds. */
  lemma PersistIsRun(w: World, id: nat, es: seq<Event>, before: seq<Exchange>, after: seq<Exchange>)
    requires Inv(w) && id in w.replicas && Idle(w.replicas[id]) && OnlyReplicaCalls(es, id)
    requires before <= after && ReplicaAfter(Persisting(w.replicas[id]), before, after).Some?
    requires ReplicaCallsOf(Step(w, PersistReplica(id)), es, id) == after[|before|..]
    ensures var w' := Run(w, [PersistReplica(id)] + es);
      id in w'.replicas && ReplicaAfter(Persisting(w.replicas[id]), before, after) == Some(w'.replicas[id])
  {
    hide Inv, Step, Run, ReplicaCallsOf, ReplayReplica, OnlyReplicaCalls, Persisting, Idle, Core, Extends, Rely,
      ConfiguredReplica;
    Idled(w, id);
    StepKeepsInv(w, PersistReplica(id));
    ReplicaReplays(Step(w, PersistReplica(id)), es, id);
    RunNothing(w);
    RunSnoc(w, [], PersistReplica(id));
    assert [] + [PersistReplica(id)] == [PersistReplica(id)];
    RunThen(w, [PersistReplica(id)], es);
  }
}
