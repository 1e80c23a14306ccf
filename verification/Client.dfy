/** The controllers' side of the API: a client that makes one call after another
    and a source of random numbers.  What the server answers and what the source
    draws is not up to the controller: every answer a caller must be prepared for
    and every draw is possible, so what is proved holds for all of them. */
module Client {
  import opened Kube
  import opened Replica
  import opened Checkouts

  /** Why a controller's operation gave up. */
  datatype Failure =
    | Api(error: ApiError)     // a call was refused
    | OwnedByOther             // the object is controlled by somebody else
    | NameTaken                // a claim under the checkout's own name is not its own
    | NoSuchPool
    | NoneAvailable
    | MissingVolume
    | Unreferring              // a bound volume without a claim reference
    | NoRandomness

  class Client {
    /** What the server answers to the n-th call. */
    const answers: (nat, Request) -> Response
    /** What it answers to writes of the reconciled object and of its status. */
    const ownAnswers: nat -> Option<ApiError>
    var calls: nat
    /** The calls made so far, with their answers. */
    ghost var log: seq<Exchange>
    var statusWrites: nat
    var objectWrites: nat

    constructor (answers: (nat, Request) -> Response, ownAnswers: nat -> Option<ApiError>)
      ensures log == [] && statusWrites == 0 && objectWrites == 0
    {
      this.answers := answers;
      this.ownAnswers := ownAnswers;
      calls := 0;
      log := [];
      statusWrites := 0;
      objectWrites := 0;
    }

    method Call(req: Request) returns (r: Response)
      modifies `calls, `log
      ensures Fits(req, r)
      ensures log == old(log) + [Exchange(req, r)]
    {
      r := answers(calls, req);
      if !Fits(req, r) {
        r := Refused(Unavailable);
      }
      calls := calls + 1;
      log := log + [Exchange(req, r)];
    }

    /** No write of the reconciled object or of its status is refused. */
    ghost predicate Willing() {
      forall n :: ownAnswers(n) == None
    }

    /** Writing the status subresource of the reconciled object. */
    method WriteStatus() returns (err: Option<Failure>)
      modifies `statusWrites
      ensures statusWrites == old(statusWrites) + 1
      ensures Willing() ==> err.None?
    {
      var e := ownAnswers(statusWrites + objectWrites);
      err := if e.Some? then Some(Api(e.value)) else None;
      statusWrites := statusWrites + 1;
    }

    /** Writing the reconciled object itself. */
    method WriteObject() returns (err: Option<Failure>)
      modifies `objectWrites
      ensures objectWrites == old(objectWrites) + 1
      ensures Willing() ==> err.None?
    {
      var e := ownAnswers(statusWrites + objectWrites);
      err := if e.Some? then Some(Api(e.value)) else None;
      objectWrites := objectWrites + 1;
    }
  }

  class Rng {
    const draws: nat -> nat
    const fails: nat -> bool
    var drawn: nat

    constructor (draws: nat -> nat, fails: nat -> bool) {
      this.draws := draws;
      this.fails := fails;
      drawn := 0;
    }

    /** No draw fails. */
    ghost predicate Reliable() {
      forall n :: !fails(n)
    }

    method Uint64N(n: nat) returns (i: nat, err: Option<Failure>)
      requires n > 0
      modifies this
      ensures i < n
      ensures Reliable() ==> err.None?
    {
      i := draws(drawn) % n;
      err := if fails(drawn) then Some(NoRandomness) else None;
      drawn := drawn + 1;
    }
  }

  // ------------------------------------------------------------------- traces

  /** The automaton's state after the calls made between two moments, or None if
      they were not the automaton's own. */
  ghost function ReplicaAfter(p: ReplicaProc, before: seq<Exchange>, after: seq<Exchange>): Option<ReplicaProc> {
    if before <= after then ReplayReplica(p, after[|before|..]) else None
  }

  lemma ReplicaStep(p: ReplicaProc, before: seq<Exchange>, now: seq<Exchange>, x: Exchange, q: ReplicaProc)
    requires ReplicaAfter(p, before, now) == Some(q) && NextReplicaCall(q) == Some(x.req) && Fits(x.req, x.resp)
    ensures ReplicaAfter(p, before, now + [x]) == Some(ResumeReplica(q, x.resp))
  {
    hide ResumeReplica, Kube.Fits;
    assert (now + [x])[|before|..] == now[|before|..] + [x];
    assert (now[|before|..] + [x])[..|now| - |before|] == now[|before|..];
  }

  lemma ReplicaStart(p: ReplicaProc, now: seq<Exchange>)
    ensures ReplicaAfter(p, now, now) == Some(p)
  {
    hide ResumeReplica, Kube.Fits;
  }

  ghost function ScanAfter(s: Scan, before: seq<Exchange>, after: seq<Exchange>): Option<Scan> {
    if before <= after then ReplayScan(s, after[|before|..]) else None
  }

  lemma ScanStep(s: Scan, before: seq<Exchange>, now: seq<Exchange>, x: Exchange, q: Scan)
    requires ScanAfter(s, before, now) == Some(q) && NextScanCall(q) == Some(x.req) && Fits(x.req, x.resp)
    ensures ScanAfter(s, before, now + [x]) == Some(ResumeScan(q, x.resp))
  {
    hide ResumeScan, Kube.Fits;
    assert (now + [x])[|before|..] == now[|before|..] + [x];
    assert (now[|before|..] + [x])[..|now| - |before|] == now[|before|..];
  }

  /** Two scans that stand at the same place with the same lists. */
  ghost predicate SameScan(a: Scan, b: Scan) {
    && a.pool == b.pool && a.pc == b.pc && a.todo == b.todo
    && a.initializing == b.initializing && a.available == b.available && a.stale == b.stale
    && (a.pc == Reading ==> a.cur == b.cur)
  }

  predicate Loads(pc: ReplicaPc) {
    pc == LoadJob || pc == LoadClaim || pc == LoadVolume
  }

  /** The scan's next call is its replica's. */
  lemma ContinueStep(q: Scan, p: ReplicaProc, req: Request, r: Response)
    requires q.pc == Reading && Loads(p.pc) && NextReplicaCall(p) == Some(req)
    ensures var (q1, c) := (q.(cur := p), ResumeReplica(p, r));
      && NextScanCall(q1) == Some(req) && ResumeScan(q1, r) == Continue(q1, c)
      && SameScan(Continue(q1, c), Continue(q, c))
      && (NextReplicaCall(c).Some? ==> Loads(c.pc) && Continue(q1, c) == q.(cur := c))
  {
  }

  /** Loading one replica is a stretch of the scan. */
  lemma {:induction false} ScanRuns(s: Scan, a: seq<Exchange>, q: Scan, b: seq<Exchange>)
    requires ReplayScan(s, a) == Some(q) && q.pc == Reading && q.cur.pc == LoadJob
    requires ReplayReplica(q.cur, b).Some?
    ensures var c := ReplayReplica(q.cur, b).value;
      && ReplayScan(s, a + b).Some?
      && SameScan(ReplayScan(s, a + b).value, Continue(q, c))
      && (NextReplicaCall(c).Some? ==> Loads(c.pc) && ReplayScan(s, a + b).value == q.(cur := c))
  {
    hide ResumeReplica, Kube.Fits;
    if b == [] {
      assert a + b == a && q.(cur := q.cur) == q;
    } else {
      var n := |b| - 1;
      hide Continue, ResumeScan, NextScanCall, NextReplicaCall, SameScan, Fits;
      assert (a + b)[..|a + b| - 1] == a + b[..n];
      ScanRuns(s, a, q, b[..n]);
      ContinueStep(q, ReplayReplica(q.cur, b[..n]).value, b[n].req, b[n].resp);
    }
  }

  lemma ScanStretch(s: Scan, before: seq<Exchange>, now: seq<Exchange>, after: seq<Exchange>, q: Scan)
    requires ScanAfter(s, before, now) == Some(q) && q.pc == Reading && q.cur.pc == LoadJob
    requires ReplicaAfter(q.cur, now, after).Some?
    ensures var c := ReplicaAfter(q.cur, now, after).value;
      && ScanAfter(s, before, after).Some?
      && SameScan(ScanAfter(s, before, after).value, Continue(q, c))
  {
    hide Continue, SameScan, ResumeReplica, Kube.Fits, ReplayScan;
    assert after[|before|..] == now[|before|..] + after[|now|..];
    ScanRuns(s, now[|before|..], q, after[|now|..]);
  }

  // ---------------------------------------------------- traces of a checkout

  ghost function ReplayProc(p: Proc, log: seq<Exchange>): Option<Proc> {
    if log == [] then Some(p)
    else
      var x := log[|log| - 1];
      var q := ReplayProc(p, log[..|log| - 1]);
      if q.Some? && NextCall(q.value) == Some(x.req) && Fits(x.req, x.resp)
      then Some(Resume(q.value, x.resp)) else None
  }

  ghost function ProcAfter(p: Proc, before: seq<Exchange>, after: seq<Exchange>): Option<Proc> {
    if before <= after then ReplayProc(p, after[|before|..]) else None
  }

  lemma ProcStart(p: Proc, now: seq<Exchange>)
    ensures ProcAfter(p, now, now) == Some(p)
  {
    hide Resume, NextCall, Kube.Fits;
  }

  lemma ProcStep(p: Proc, before: seq<Exchange>, now: seq<Exchange>, x: Exchange, q: Proc)
    requires ProcAfter(p, before, now) == Some(q) && NextCall(q) == Some(x.req) && Fits(x.req, x.resp)
    ensures ProcAfter(p, before, now + [x]) == Some(Resume(q, x.resp))
  {
    hide Resume, NextCall, Kube.Fits;
    assert (now + [x])[|before|..] == now[|before|..] + [x];
    assert (now[|before|..] + [x])[..|now| - |before|] == now[|before|..];
  }

  lemma {:induction false} ProcRuns(p: Proc, a: seq<Exchange>, b: seq<Exchange>)
    requires ReplayProc(p, a).Some?
    ensures ReplayProc(p, a + b) == ReplayProc(ReplayProc(p, a).value, b)
  {
    hide NextCall, Resume, Fits;
    if b == [] {
      assert a + b == a;
    } else {
      assert (a + b)[..|a + b| - 1] == a + b[..|b| - 1];
      ProcRuns(p, a, b[..|b| - 1]);
    }
  }

  /** A run after a run is a run. */
  lemma ProcThen(p: Proc, before: seq<Exchange>, now: seq<Exchange>, after: seq<Exchange>, q: Proc)
    requires ProcAfter(p, before, now) == Some(q) && ProcAfter(q, now, after).Some?
    ensures ProcAfter(p, before, after) == ProcAfter(q, now, after)
  {
    hide ReplayProc;
    ProcRuns(p, now[|before|..], after[|now|..]);
    assert after[|before|..] == now[|before|..] + after[|now|..];
  }

  lemma LookingStep(p: Proc, q: Scan, req: Request, r: Response)
    requires p.pc == Scanning && NextScanCall(q) == Some(req)
    ensures var p1 := p.(scan := q);
      && AfterScan(p1) == p1 && NextCall(p1) == Some(req)
      && Resume(p1, r) == AfterScan(p.(scan := ResumeScan(q, r)))
  {
    hide ResumeScan, AfterRead;
  }

  /** Loading the pool is a stretch of the checkout's reconcile. */
  lemma {:induction false} LookingRuns(p: Proc, b: seq<Exchange>)
    requires p.pc == Scanning && NextScanCall(p.scan).Some? && ReplayScan(p.scan, b).Some?
    ensures ReplayProc(p, b) == Some(AfterScan(p.(scan := ReplayScan(p.scan, b).value)))
  {
    hide NextCall, Resume, ResumeScan, Fits, AfterScan;
    if b == [] {
      LookingStep(p, p.scan, NextScanCall(p.scan).value, Refused(Unavailable));
      assert p.(scan := p.scan) == p;
    } else {
      var n := |b| - 1;
      LookingRuns(p, b[..n]);
      LookingStep(p, ReplayScan(p.scan, b[..n]).value, b[n].req, b[n].resp);
    }
  }
}
