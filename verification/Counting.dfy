/** How many replicas a pool has in the cluster, and what the calls of its controller
    and the steps of Kubernetes do to that number when nobody else comes in between. */
module Counting {
  import opened Labels
  import opened Kube
  import opened Replica
  import opened Checkouts
  import opened Selection
  import opened Client

  // -------------------------------------------------------------------- counting

  /** The claim at k is a replica of the pool in this bucket. */
  predicate In(s: Cluster, pool: Pool, k: Key, b: Bucket) {
    && k in s.claims
    && k.namespace == pool.key.namespace
    && Matches(pool.spec.selector, s.claims[k].labels)
    && ReplicaAt(s, k).Some?
    && BucketOf(pool, ReplicaAt(s, k).value) == b
  }

  /** It is initializing or available. */
  predicate Counts(s: Cluster, pool: Pool, k: Key) {
    In(s, pool, k, ToInitializing) || In(s, pool, k, ToAvailable)
  }

  /** What counts toward the request: a replica that matches, is the pool's or
      nobody's, is not going, not lost, and whose init job has not failed. */
  lemma CountsIff(s: Cluster, pool: Pool, k: Key)
    ensures Counts(s, pool, k) <==>
      && k in s.claims && k.namespace == pool.key.namespace && Matches(pool.spec.selector, s.claims[k].labels)
      && (s.claims[k].controller == None || s.claims[k].controller == Some(PoolOwner(pool.uid)))
      && !s.claims[k].deleting && s.claims[k].phase != Lost
      && (k in s.jobs ==> !s.jobs[k].outcome.Failed?)
      && (s.claims[k].phase == Bound ==>
            var n := s.claims[k].spec.volumeName;
            && n.Some? && n.value in s.volumes
            && s.volumes[n.value].spec.claimRef.Some? && s.volumes[n.value].spec.claimRef.value.uid == s.claims[k].uid)
  {
    hide Matches, Marked;
  }

  function Counted(s: Cluster, pool: Pool): set<Key> {
    set k | k in s.claims && Counts(s, pool, k)
  }

  function Keys(rs: seq<Replica>): set<Key> {
    set i | 0 <= i < |rs| :: rs[i].key
  }

  lemma ListedKeys(s: Cluster, pool: Pool, listing: seq<Key>, rs: seq<Replica>, b: Bucket)
    requires IsListing(s, pool.key.namespace, pool.spec.selector, listing)
    requires forall r :: r in rs <==> Lands(s, pool, listing, r, b)
    ensures Keys(rs) == set k | k in s.claims && In(s, pool, k, b)
  {
    hide BucketOf, Matches;
    forall k ensures k in Keys(rs) <==> k in s.claims && In(s, pool, k, b) {
      if k in s.claims && In(s, pool, k, b) {
        assert Lands(s, pool, listing, ReplicaAt(s, k).value, b);
      }
      if k in Keys(rs) {
        var j :| 0 <= j < |rs| && rs[j].key == k;
        assert rs[j] in rs;
      }
    }
  }

  // ---------------------------------------------------- one replica, undisturbed

  /** Hypothesis on the clusters spoken of here: stored objects have UIDs and phases,
      which the API server sees to, and nobody has named a volume that is not yet
      provisioned, which it does not. */
  ghost predicate Sound(s: Cluster) {
    && Identified(s)
    && (forall k | k in s.claims :: s.claims[k].phase != NoPhase)
    && (forall k | k in s.claims :: Older(s.claims[k].spec.volumeName, s.next))
    && (forall n | n in s.volumes :: Older(Some(n), s.next))
  }

  predicate Older(n: Option<VolumeName>, next: nat) {
    n.Some? && n.value.Provisioned? ==> n.value.id < next
  }

  /** Nothing but the claim and the job at k has changed. */
  ghost predicate OnlyAt(s: Cluster, s': Cluster, k: Key) {
    && s'.volumes == s.volumes
    && s.next <= s'.next
    && (forall k' | k' != k :: k' in s'.claims <==> k' in s.claims)
    && (forall k' | k' != k && k' in s.claims :: s'.claims[k'] == s.claims[k'])
    && (forall k' | k' != k :: JobAt(s', k') == JobAt(s, k'))
  }

  lemma OnlyAtThen(s: Cluster, s1: Cluster, s2: Cluster, k: Key)
    requires OnlyAt(s, s1, k) && OnlyAt(s1, s2, k)
    ensures OnlyAt(s, s2, k)
  {
  }

  /** Other replicas count as before. */
  lemma OthersCount(s: Cluster, s': Cluster, pool: Pool, k: Key)
    requires OnlyAt(s, s', k)
    ensures Counted(s', pool) - {k} == Counted(s, pool) - {k}
  {
    forall k' | k' != k ensures k' in Counted(s', pool) <==> k' in Counted(s, pool) {
      assert ReplicaAt(s', k') == ReplicaAt(s, k');
      hide ReplicaAt, BucketOf, Matches;
    }
  }

  lemma SameCount(s: Cluster, s': Cluster, pool: Pool, k: Key)
    requires OnlyAt(s, s', k) && (k in Counted(s', pool) <==> k in Counted(s, pool))
    ensures Counted(s', pool) == Counted(s, pool)
  {
    hide Counts;
    OthersCount(s, s', pool, k);
    hide Counted, OnlyAt;
    var a, b := Counted(s, pool), Counted(s', pool);
    forall k' ensures k' in a <==> k' in b {
      assert k' in a - {k} <==> k' in b - {k};
    }
  }

  lemma ClaimSet(s: Cluster, s': Cluster, k: Key, c: Claim)
    requires Sound(s) && s.next <= s'.next && s' == s.(claims := s.claims[k := c], next := s'.next)
    requires c.uid != 0 && c.phase != NoPhase && Older(c.spec.volumeName, s'.next)
    ensures OnlyAt(s, s', k) && Sound(s')
  {
    hide OnlyAt;
    OnlyClaimAt(s, s', k, c);
  }

  lemma OnlyClaimAt(s: Cluster, s': Cluster, k: Key, c: Claim)
    requires s.next <= s'.next && s' == s.(claims := s.claims[k := c], next := s'.next)
    ensures OnlyAt(s, s', k)
  {
  }

  lemma JobSet(s: Cluster, s': Cluster, k: Key, j: Job)
    requires Sound(s) && s.next <= s'.next && s' == s.(jobs := s.jobs[k := j], next := s'.next) && j.uid != 0
    ensures OnlyAt(s, s', k) && Sound(s')
  {
    hide OnlyAt;
    OnlyJobAt(s, s', k, j);
  }

  lemma OnlyJobAt(s: Cluster, s': Cluster, k: Key, j: Job)
    requires s.next <= s'.next && s' == s.(jobs := s.jobs[k := j], next := s'.next)
    ensures OnlyAt(s, s', k)
  {
  }

  lemma JobCut(s: Cluster, s': Cluster, k: Key)
    requires Sound(s) && s' == s.(jobs := s.jobs - {k})
    ensures OnlyAt(s, s', k) && Sound(s')
  {
  }

  /** The claim at k is still what it was, with the template's labels and the pool's
      ownership; its job has not failed since. */
  ghost predicate KeptAt(s: Cluster, s': Cluster, pool: Pool, k: Key) {
    && k in s.claims && k in s'.claims
    && s'.claims[k].uid == s.claims[k].uid
    && s'.claims[k].phase == s.claims[k].phase
    && s'.claims[k].deleting == s.claims[k].deleting
    && s'.claims[k].spec == s.claims[k].spec
    && s'.claims[k].labels == Overlay(s.claims[k].labels, pool.spec.template.labels)
    && s'.claims[k].controller == Some(PoolOwner(pool.uid))
    && (JobAt(s', k).outcome.Failed? ==> JobAt(s, k).outcome.Failed?)
  }

  lemma KeptCounts(s: Cluster, s': Cluster, pool: Pool, k: Key)
    requires s'.volumes == s.volumes && KeptAt(s, s', pool, k) && Counts(s, pool, k)
    requires Matches(pool.spec.selector, pool.spec.template.labels)
    ensures Counts(s', pool, k)
  {
    OverlayMatches(pool.spec.selector, s.claims[k].labels, pool.spec.template.labels);
    hide Matches, Overlay, Marked;
  }

  /** An update of the claim at k that was just read. */
  lemma PutOver(s: Cluster, k: Key, o: Claim)
    requires Sound(s) && k in s.claims && o.uid == s.claims[k].uid && o.rv == s.claims[k].rv && o.spec == s.claims[k].spec
    ensures var (s', r) := ServePutClaim(s, k, o);
      && OnlyAt(s, s', k) && Sound(s') && s'.jobs == s.jobs
      && r.StoredClaim? && k in s'.claims && s'.claims[k] == r.claim
      && r.claim == o.(rv := r.claim.rv, created := r.claim.created,
                       deleting := s.claims[k].deleting, phase := s.claims[k].phase)
  {
    SoundClaim(s, k);
    var (s', r) := ServePutClaim(s, k, o);
    hide Sound, OnlyAt;
    if s' == s {
      Untouched(s, k);
    } else {
      ClaimSet(s, s', k, r.claim);
    }
  }

  lemma Untouched(s: Cluster, k: Key)
    ensures OnlyAt(s, s, k)
  {
  }

  lemma SoundClaim(s: Cluster, k: Key)
    requires Sound(s) && k in s.claims
    ensures s.claims[k].uid != 0 && s.claims[k].phase != NoPhase
    ensures forall n | s.next <= n :: Older(s.claims[k].spec.volumeName, n)
  {
  }

  /** The free name k now holds a fresh claim of the pool. */
  ghost predicate CreatedAt(s: Cluster, pool: Pool, k: Key) {
    && k in s.claims
    && s.claims[k].phase == Pending && !s.claims[k].deleting
    && s.claims[k].labels == pool.spec.template.labels
    && s.claims[k].controller == Some(PoolOwner(pool.uid))
    && !JobAt(s, k).outcome.Failed?
  }

  lemma CreatedCounts(s: Cluster, pool: Pool, k: Key)
    requires CreatedAt(s, pool, k) && k.namespace == pool.key.namespace
    requires Matches(pool.spec.selector, pool.spec.template.labels)
    ensures Counts(s, pool, k)
  {
    hide Matches;
  }

  // --------------------------------------------------------------- served calls

  /** The answer to a call; a list call may list its items in any order. */
  function Answer(s: Cluster, x: Exchange): (Cluster, Response) {
    Serve(s, x.req, if x.resp.GotKeys? then x.resp.keys else [])
  }

  /** It is the answer of this cluster; it lists when it is asked to. */
  predicate Answers(s: Cluster, x: Exchange) {
    x.resp == Answer(s, x).1 && (x.req.ListClaims? ==> x.resp.GotKeys?)
  }

  /** The cluster after these calls, if their answers are those it gave. */
  function Served(s: Cluster, log: seq<Exchange>): Option<Cluster> {
    if log == [] then Some(s)
    else
      var x, s' := log[|log| - 1], Served(s, log[..|log| - 1]);
      if s'.Some? && Answers(s'.value, x) then Some(Answer(s'.value, x).0) else None
  }

  lemma {:induction false} ServedThen(s: Cluster, a: seq<Exchange>, b: seq<Exchange>)
    ensures Served(s, a + b) == if Served(s, a).Some? then Served(Served(s, a).value, b) else None
  {
    hide Answer, Answers;
    if b == [] {
      assert a + b == a;
    } else {
      assert (a + b)[..|a + b| - 1] == a + b[..|b| - 1];
      ServedThen(s, a, b[..|b| - 1]);
    }
  }

  // -------------------------------------------------------------------- loading

  /** A served load leaves the cluster alone and goes by what is in it. */
  lemma {:induction false} ServedScan(s: Cluster, pool: Pool, log: seq<Exchange>, q: Scan) returns (listing: seq<Key>)
    requires ReplayScan(StartScan(pool), log) == Some(q) && Served(s, log).Some?
    ensures Served(s, log) == Some(s) && Midway(s, pool, listing, q)
    ensures q.pc != Listing ==> IsListing(s, pool.key.namespace, pool.spec.selector, listing)
    ensures Referring(s) ==> q.pc != ScanFailed
  {
    hide ResumeScan, Fits, IsListing, Exact, Serve, Referring, Midway, Answers, CallsLeft;
    if log == [] {
      listing := [];
      ScanStarts(s, pool, listing);
    } else {
      var n := |log| - 1;
      var q1 := ReplayScan(StartScan(pool), log[..n]).value;
      listing := ServedScan(s, pool, log[..n], q1);
      MidwayFacts(s, pool, listing, q1);
      if q1.pc == Listing {
        ListedThen(s, pool, q1, log[n], listing);
        listing := log[n].resp.keys;
      }
      ScanAsks(s, q1, log[n], listing);
      Selection.ScanStep(s, pool, listing, q1);
      if Referring(s) {
        ScanGoesOn(s, pool, listing, q1);
      }
    }
  }

  lemma ListedThen(s: Cluster, pool: Pool, q: Scan, x: Exchange, before: seq<Key>)
    requires NextScanCall(q) == Some(x.req) && q.pc == Listing && Answers(s, x) && Midway(s, pool, before, q)
    ensures x.resp.GotKeys? && IsListing(s, pool.key.namespace, pool.spec.selector, x.resp.keys)
    ensures Midway(s, pool, x.resp.keys, q)
  {
    hide IsListing, Exact, Loading, ServePutClaim;
  }

  /** A load only reads, and once it has its listing it lists no more. */
  lemma ScanAsks(s: Cluster, q: Scan, x: Exchange, listing: seq<Key>)
    requires NextScanCall(q) == Some(x.req) && Answers(s, x)
    requires q.pc == Listing || (q.pc == Reading && (q.cur.pc == LoadJob || q.cur.pc == LoadClaim || q.cur.pc == LoadVolume))
    requires q.pc == Listing ==> x.resp == GotKeys(listing)
    ensures Answer(s, x).0 == s && x.resp == Serve(s, x.req, listing).1
  {
    hide IsListing, Find, ServePutClaim;
  }

  /** What a load found, and what it lists as stale does not count. */
  lemma LoadMirrors(s: Cluster, pool: Pool, listing: seq<Key>, q: Scan)
    requires IsListing(s, pool.key.namespace, pool.spec.selector, listing) && Exact(s, pool, listing, q) && Sound(s)
    ensures forall r | r in q.initializing || r in q.available :: Mirrors(s, pool, r)
    ensures forall r | r in q.stale :: Uncounted(s, pool, r)
    ensures forall a, b | a in q.initializing && b in q.available :: a.key != b.key
    ensures Counted(s, pool) == Keys(q.initializing) + Keys(q.available)
  {
    forall r | r in q.initializing || r in q.available ensures Mirrors(s, pool, r) {
    }
    forall r | r in q.stale ensures Uncounted(s, pool, r) {
    }
    hide Sound, Lands, Mirrors, Uncounted;
    ListedKeys(s, pool, listing, q.initializing, ToInitializing);
    ListedKeys(s, pool, listing, q.available, ToAvailable);
    CountsSplit(s, pool, Keys(q.initializing), Keys(q.available));
    forall a, b | a in q.initializing && b in q.available ensures a.key != b.key {
      InBucket(s, pool, listing, a, ToInitializing);
      InBucket(s, pool, listing, b, ToAvailable);
    }
  }

  /** A whole load, undisturbed: what was found counts, what is stale does not, and
      nothing else does. */
  lemma ServedLoad(s: Cluster, pool: Pool, log: seq<Exchange>, q: Scan)
    requires ReplayScan(StartScan(pool), log) == Some(q) && q.pc == Scanned && Served(s, log).Some? && Sound(s)
    ensures Served(s, log) == Some(s)
    ensures Distinct(q.initializing) && Distinct(q.available)
    ensures forall r | r in q.initializing || r in q.available :: Mirrors(s, pool, r)
    ensures forall r | r in q.stale :: Uncounted(s, pool, r)
    ensures forall a, b | a in q.initializing && b in q.available :: a.key != b.key
    ensures Counted(s, pool) == Keys(q.initializing) + Keys(q.available)
  {
    hide ReplayScan, Served, Sound, IsListing, Distinct, Mirrors, Uncounted, Counted, Lands;
    var listing := ServedScan(s, pool, log, q);
    LoadMirrors(s, pool, listing, q);
  }

  lemma InBucket(s: Cluster, pool: Pool, listing: seq<Key>, r: Replica, b: Bucket)
    requires Lands(s, pool, listing, r, b)
    ensures ReplicaAt(s, r.key) == Some(r) && BucketOf(pool, r) == b
  {
  }

  lemma CountsSplit(s: Cluster, pool: Pool, i: set<Key>, a: set<Key>)
    requires i == set k | k in s.claims && In(s, pool, k, ToInitializing)
    requires a == set k | k in s.claims && In(s, pool, k, ToAvailable)
    ensures i + a == Counted(s, pool)
  {
    hide ReplicaAt, BucketOf, Matches;
  }

  // ------------------------------------------------------------------ persisting

  /** The job in memory is the one at its name, if there is one. */
  predicate JobKnown(s: Cluster, r: Replica) {
    r.key in s.jobs ==> s.jobs[r.key].uid == r.job.uid
  }

  /** The claim in memory is the one at its name, if there is one, and so is the job. */
  predicate Known(s: Cluster, r: Replica) {
    JobKnown(s, r) && (r.key in s.claims ==> s.claims[r.key].uid == r.claim.uid)
  }

  /** A replica in memory that counts, as it is in the cluster but for annotations. */
  predicate Mirrors(s: Cluster, pool: Pool, r: Replica) {
    && Counts(s, pool, r.key)
    && r.claim == s.claims[r.key].(annotations := r.claim.annotations)
    && JobKnown(s, r)
  }

  /** A replica in memory that is known but does not count. */
  predicate Uncounted(s: Cluster, pool: Pool, r: Replica) {
    Known(s, r) && r.claim.uid != 0 && r.key in s.claims && r.key !in Counted(s, pool)
  }

  /** The claim in memory is the one at its name, labelled and owned by the pool. */
  ghost predicate InMemory(s: Cluster, p: ReplicaProc) {
    var (k, c) := (p.mem.key, p.mem.claim);
    && k in s.claims
    && c.uid == s.claims[k].uid && c.rv == s.claims[k].rv && c.spec == s.claims[k].spec
    && c.labels == Overlay(s.claims[k].labels, p.pool.spec.template.labels)
    && c.controller == Some(PoolOwner(p.pool.uid))
  }

  /** How far persisting a replica has come, `s0` being the cluster at its start. */
  ghost predicate PersistInv(s0: Cluster, s: Cluster, q: ReplicaProc) {
    && OnlyAt(s0, s, q.mem.key) && Sound(s) && JobKnown(s, q.mem)
    && (JobAt(s, q.mem.key).outcome.Failed? ==> JobAt(s0, q.mem.key).outcome.Failed?)
    && (q.pc != PersistDropJob && Available(q.mem) ==> q.mem.key !in s.jobs)
    && match q.pc
       case PersistDropJob => s.claims == s0.claims && InMemory(s, q)
       case PersistClaim => s.claims == s0.claims && InMemory(s, q)
       case PersistJob =>
         && KeptAt(s0, s, q.pool, q.mem.key) && q.mem.claim == s.claims[q.mem.key] && q.mem.job.uid == 0
         && !Available(q.mem)
       case Ready => KeptAt(s0, s, q.pool, q.mem.key) && q.mem.claim == s.claims[q.mem.key]
       case _ => false
  }

  lemma PersistStart(s: Cluster, pool: Pool, r: Replica)
    requires Sound(s) && Mirrors(s, pool, r)
    ensures var p := Persisting(ReplicaProc(pool, Ready, r));
      PersistInv(s, s, p) && p.pool == pool && p.mem.key == r.key
  {
    hide Sound, Persisting, Matches;
    Untouched(s, r.key);
    PersistingSame(ReplicaProc(pool, Ready, r));
    hide Available;
    if r.job.uid == 0 {
      NoJobThere(s, r);
    }
  }

  lemma PersistStepJob(s0: Cluster, s: Cluster, q: ReplicaProc, listing: seq<Key>)
    requires PersistInv(s0, s, q) && (q.pc == PersistDropJob || q.pc == PersistJob)
    ensures NextReplicaCall(q).Some?
    ensures var (s', r) := Serve(s, NextReplicaCall(q).value, listing); PersistInv(s0, s', ResumeReplica(q, r))
  {
    hide OnlyAt, Sound, InMemory, KeptAt, Available, ServePutClaim;
    var k := q.mem.key;
    if q.pc == PersistDropJob {
      DropJobOnlyAt(s, k, q.mem.job.uid);
      OnlyAtThen(s0, s, ServeDropJob(s, k, q.mem.job.uid).0, k);
      InMemorySame(s, ServeDropJob(s, k, q.mem.job.uid).0, q);
    } else {
      NoJobThere(s, q.mem);
      PutJobOnlyAt(s, k, q.mem.job);
      OnlyAtThen(s0, s, ServePutJob(s, k, q.mem.job).0, k);
      AvailableSame(q.mem, ResumeReplica(q, ServePutJob(s, k, q.mem.job).1).mem);
      KeptOn(s0, s, ServePutJob(s, k, q.mem.job).0, q.pool, k);
    }
  }

  /** Whether a replica is available depends on its volume and its mark alone. */
  lemma AvailableSame(a: Replica, b: Replica)
    requires a.volume == b.volume && a.claim.annotations == b.claim.annotations
    ensures Available(a) <==> Available(b)
  {
  }

  lemma NoJobThere(s: Cluster, r: Replica)
    requires Sound(s) && JobKnown(s, r) && r.job.uid == 0
    ensures r.key !in s.jobs
  {
  }

  lemma InMemorySame(s: Cluster, s': Cluster, q: ReplicaProc)
    requires s'.claims == s.claims && InMemory(s, q)
    ensures InMemory(s', q.(pc := PersistClaim))
  {
  }

  lemma PersistStepClaim(s0: Cluster, s: Cluster, q: ReplicaProc, listing: seq<Key>)
    requires PersistInv(s0, s, q) && q.pc == PersistClaim
    ensures NextReplicaCall(q).Some?
    ensures var (s', r) := Serve(s, NextReplicaCall(q).value, listing); PersistInv(s0, s', ResumeReplica(q, r))
  {
    hide OnlyAt, Sound, Available, ServePutClaim, KeptAt, Overlay;
    var k := q.mem.key;
    var (s', r) := ServePutClaim(s, k, q.mem.claim);
    PutOver(s, k, q.mem.claim);
    PutKeeps(s0, s, s', q, r.claim);
    AvailableSame(q.mem, ResumeReplica(q, r).mem);
    OnlyAtThen(s0, s, s', k);
  }

  lemma PutKeeps(s0: Cluster, s: Cluster, s': Cluster, q: ReplicaProc, c: Claim)
    requires s.claims == s0.claims && InMemory(s, q) && s'.jobs == s.jobs
    requires JobAt(s, q.mem.key).outcome.Failed? ==> JobAt(s0, q.mem.key).outcome.Failed?
    requires q.mem.key in s'.claims && s'.claims[q.mem.key] == c
    requires var o := s.claims[q.mem.key];
      c == q.mem.claim.(rv := c.rv, created := c.created, deleting := o.deleting, phase := o.phase)
    ensures KeptAt(s0, s', q.pool, q.mem.key)
  {
    hide Overlay;
  }

  /** Every served call of persisting keeps this. */
  lemma {:induction false} PersistRun(s: Cluster, p: ReplicaProc, log: seq<Exchange>)
    requires PersistInv(s, s, p) && ReplayReplica(p, log).Some? && Served(s, log).Some?
    ensures var q := ReplayReplica(p, log).value;
      PersistInv(s, Served(s, log).value, q) && q.pool == p.pool && q.mem.key == p.mem.key
  {
    hide PersistInv, Serve, ResumeReplica, NextReplicaCall, Fits;
    if log != [] {
      var n := |log| - 1;
      PersistRun(s, p, log[..n]);
      var s1, q1 := Served(s, log[..n]).value, ReplayReplica(p, log[..n]).value;
      var l := if log[n].resp.GotKeys? then log[n].resp.keys else [];
      PersistCalls(s, s1, q1);
      if q1.pc == PersistClaim {
        PersistStepClaim(s, s1, q1, l);
      } else {
        PersistStepJob(s, s1, q1, l);
      }
      ResumedSame(q1, log[n].resp);
    }
  }

  lemma PersistCalls(s0: Cluster, s: Cluster, q: ReplicaProc)
    requires PersistInv(s0, s, q) && NextReplicaCall(q).Some?
    ensures q.pc == PersistDropJob || q.pc == PersistClaim || q.pc == PersistJob
  {
    hide Sound;
  }

  /** No answer changes whose replica it is or its name. */
  lemma ResumedSame(p: ReplicaProc, r: Response)
    ensures ResumeReplica(p, r).pool == p.pool && ResumeReplica(p, r).mem.key == p.mem.key
  {
    hide Available;
  }

  /** Persisting a replica that counts, undisturbed: it counts as before, and so do all
      others; what the code holds is again what is in the cluster; and if it is
      available its init job is gone. */
  lemma PersistKeeps(s: Cluster, pool: Pool, r: Replica, before: seq<Exchange>, now: seq<Exchange>, q: ReplicaProc, s': Cluster)
    requires Sound(s) && Mirrors(s, pool, r) && Matches(pool.spec.selector, pool.spec.template.labels)
    requires ReplicaAfter(Persisting(ReplicaProc(pool, Ready, r)), before, now) == Some(q) && q.pc == Ready
    requires before <= now && Served(s, now[|before|..]) == Some(s')
    ensures Sound(s') && OnlyAt(s, s', r.key) && Counted(s', pool) == Counted(s, pool)
    ensures q.mem.key == r.key && Mirrors(s', pool, q.mem)
    ensures q.mem.volume.Some? && PHASE_KEY in q.mem.claim.annotations && q.mem.claim.annotations[PHASE_KEY] == AVAILABLE ==>
      r.key !in s'.jobs
  {
    hide Sound, OnlyAt, Persisting, Served, ReplayReplica, Matches, KeptAt, JobAt, InMemory, Counts;
    PersistStart(s, pool, r);
    PersistRun(s, Persisting(ReplicaProc(pool, Ready, r)), now[|before|..]);
    SameVolumes(s, s', r.key);
    KeptCounts(s, s', pool, r.key);
    hide PersistInv;
    SomewhereCounts(s, pool, r.key);
    SomewhereCounts(s', pool, r.key);
    SameCount(s, s', pool, r.key);
  }

  /** And it does not fail. */
  lemma PersistSucceeds(s: Cluster, pool: Pool, r: Replica, before: seq<Exchange>, now: seq<Exchange>)
    requires Sound(s) && Mirrors(s, pool, r)
    requires ReplicaAfter(Persisting(ReplicaProc(pool, Ready, r)), before, now).Some?
    requires before <= now && Served(s, now[|before|..]).Some?
    ensures ReplicaAfter(Persisting(ReplicaProc(pool, Ready, r)), before, now).value.pc != Broken
  {
    hide Sound, OnlyAt, Persisting, Served, ReplayReplica, KeptAt, JobAt, InMemory, Mirrors, JobKnown;
    PersistStart(s, pool, r);
    PersistRun(s, Persisting(ReplicaProc(pool, Ready, r)), now[|before|..]);
  }

  lemma SameVolumes(s: Cluster, s': Cluster, k: Key)
    requires OnlyAt(s, s', k)
    ensures s'.volumes == s.volumes
  {
  }

  /** Configuring leaves all that counts alone. */
  lemma ConfigureMirrors(s: Cluster, pool: Pool, r: Replica)
    requires Sound(s) && Mirrors(s, pool, r)
    ensures Mirrors(s, pool, ConfiguredReplica(pool.spec, r)) && ConfiguredReplica(pool.spec, r).key == r.key
  {
    SoundClaim(s, r.key);
    hide Sound, Matches, ConfiguredReplica, Marked;
  }

  /** What happens under another name leaves a replica as it is. */
  lemma MirrorsElsewhere(s: Cluster, s': Cluster, pool: Pool, k: Key, r: Replica)
    requires OnlyAt(s, s', k) && Sound(s') && r.key != k && Mirrors(s, pool, r)
    ensures Mirrors(s', pool, r)
  {
    assert ReplicaAt(s', r.key) == ReplicaAt(s, r.key);
    assert JobAt(s', r.key) == JobAt(s, r.key);
    hide ReplicaAt, BucketOf, Matches;
  }

  lemma StillFree(s: Cluster, s': Cluster, k: Key, free: Key)
    requires OnlyAt(s, s', k) && Sound(s') && k in s.claims && free !in s.claims && free !in s.jobs
    ensures free !in s'.claims && free !in s'.jobs
  {
    assert JobAt(s', free) == JobAt(s, free);
  }

  // -------------------------------------------------------------------- deleting

  /** Since s0 nothing was added at k. */
  ghost predicate Shrinks(s0: Cluster, s: Cluster, k: Key) {
    && (k in s.claims ==> k in s0.claims && s.claims[k].uid == s0.claims[k].uid)
    && (k in s.jobs ==> k in s0.jobs && s.jobs[k] == s0.jobs[k])
  }

  /** The job is gone, if it was loaded or there was none. */
  predicate JobGone(s0: Cluster, s: Cluster, r: Replica) {
    r.job.uid != 0 || r.key !in s0.jobs ==> r.key !in s.jobs
  }

  /** The claim at k is gone or on its way out. */
  predicate Going(s: Cluster, k: Key) {
    k in s.claims ==> s.claims[k].deleting
  }

  /** How far deleting a replica has come. */
  ghost predicate DeleteInv(s0: Cluster, s: Cluster, pool: Pool, q: ReplicaProc) {
    && OnlyAt(s0, s, q.mem.key) && Sound(s) && q.mem.claim.uid != 0 && Shrinks(s0, s, q.mem.key)
    && match q.pc
       case DeleteJob => true
       case DeleteClaim => JobGone(s0, s, q.mem)
       case Deleted => q.mem.key !in Counted(s, pool) && JobGone(s0, s, q.mem) && Going(s, q.mem.key)
       case Broken => !Known(s0, q.mem)
       case _ => false
  }

  lemma DeleteStep(s0: Cluster, s: Cluster, pool: Pool, q: ReplicaProc, listing: seq<Key>)
    requires DeleteInv(s0, s, pool, q) && NextReplicaCall(q).Some?
    ensures var (s', r) := Serve(s, NextReplicaCall(q).value, listing); DeleteInv(s0, s', pool, ResumeReplica(q, r))
  {
    hide OnlyAt, Sound, Counted, ServePutClaim;
    var k := q.mem.key;
    if q.pc == DeleteJob {
      DropJobAny(s, k, q.mem.job.uid);
      OnlyAtThen(s0, s, ServeDropJob(s, k, q.mem.job.uid).0, k);
    } else {
      var (s', r) := ServeDropClaim(s, k, q.mem.claim.uid);
      DropClaimAny(s, k, q.mem.claim.uid);
      OnlyAtThen(s0, s, s', k);
      if r.Dropped? {
        NotCounted(s', pool, k);
      }
    }
  }

  lemma {:induction false} DeleteRun(s: Cluster, pool: Pool, p: ReplicaProc, log: seq<Exchange>)
    requires DeleteInv(s, s, pool, p) && ReplayReplica(p, log).Some? && Served(s, log).Some?
    ensures var q := ReplayReplica(p, log).value;
      DeleteInv(s, Served(s, log).value, pool, q) && q.mem == p.mem
  {
    hide DeleteInv, Serve, ResumeReplica, NextReplicaCall, Fits;
    if log != [] {
      var n := |log| - 1;
      DeleteRun(s, pool, p, log[..n]);
      var l := if log[n].resp.GotKeys? then log[n].resp.keys else [];
      DeleteStep(s, Served(s, log[..n]).value, pool, ReplayReplica(p, log[..n]).value, l);
      DeletingSame(s, Served(s, log[..n]).value, pool, ReplayReplica(p, log[..n]).value, log[n].resp);
    }
  }

  lemma DeletingSame(s0: Cluster, s: Cluster, pool: Pool, q: ReplicaProc, r: Response)
    requires DeleteInv(s0, s, pool, q) && NextReplicaCall(q).Some?
    ensures ResumeReplica(q, r).mem == q.mem
  {
    hide OnlyAt, Sound, Shrinks, Known, Counted;
  }

  lemma DeleteStart(s: Cluster, pool: Pool, r: Replica)
    requires Sound(s) && r.claim.uid != 0
    ensures DeleteInv(s, s, pool, Deleting(ReplicaProc(pool, Ready, r)))
    ensures Deleting(ReplicaProc(pool, Ready, r)).mem == r
  {
    hide Sound, OnlyAt, Counted;
    Untouched(s, r.key);
  }

  /** Deleting a loaded replica, undisturbed, takes away the one under its name and
      nothing else: its init job, if it was loaded, is gone, and its claim is gone or on
      its way out. */
  lemma RemoveTakes(s: Cluster, pool: Pool, r: Replica, before: seq<Exchange>, now: seq<Exchange>, q: ReplicaProc, s': Cluster)
    requires Sound(s) && r.claim.uid != 0
    requires ReplicaAfter(Deleting(ReplicaProc(pool, Ready, r)), before, now) == Some(q) && q.pc == Deleted
    requires before <= now && Served(s, now[|before|..]) == Some(s')
    ensures Sound(s') && OnlyAt(s, s', r.key) && Counted(s', pool) == Counted(s, pool) - {r.key}
    ensures Shrinks(s, s', r.key)
    ensures r.job.uid != 0 || r.key !in s.jobs ==> r.key !in s'.jobs
    ensures r.key in s'.claims ==> s'.claims[r.key].deleting
  {
    hide Sound, OnlyAt, Counted, Deleting, Served, ReplayReplica, Shrinks;
    DeleteStart(s, pool, r);
    DeleteRun(s, pool, Deleting(ReplicaProc(pool, Ready, r)), now[|before|..]);
    OthersCount(s, s', pool, r.key);
    assert Counted(s', pool) - {r.key} == Counted(s', pool);
  }

  /** And it does not fail if the objects are those that were loaded. */
  lemma RemoveSucceeds(s: Cluster, pool: Pool, r: Replica, before: seq<Exchange>, now: seq<Exchange>)
    requires Sound(s) && r.claim.uid != 0 && Known(s, r)
    requires ReplicaAfter(Deleting(ReplicaProc(pool, Ready, r)), before, now).Some?
    requires before <= now && Served(s, now[|before|..]).Some?
    ensures ReplicaAfter(Deleting(ReplicaProc(pool, Ready, r)), before, now).value.pc != Broken
  {
    hide Sound, OnlyAt, Counted, Deleting, Served, ReplayReplica, Shrinks, Known;
    DeleteStart(s, pool, r);
    DeleteRun(s, pool, Deleting(ReplicaProc(pool, Ready, r)), now[|before|..]);
  }

  /** What was known of a name stays known when things are taken away there, or nothing
      happens. */
  lemma StillKnown(s: Cluster, s': Cluster, k: Key, r: Replica)
    requires OnlyAt(s, s', k) && Sound(s') && Known(s, r) && (r.key == k ==> Shrinks(s, s', k))
    ensures Known(s', r)
  {
    assert JobAt(s', r.key) == JobAt(s, r.key) || r.key == k;
  }

  // -------------------------------------------------------------------- creating

  /** How far creating a replica under a free name has come. */
  ghost predicate CreateInv(s0: Cluster, s: Cluster, q: ReplicaProc) {
    && OnlyAt(s0, s, q.mem.key) && Sound(s) && q.mem.volume == None
    && AskedFor(q.pool.spec, q.mem.key.name, q.mem.job) && AsksAsTold(q.pool.spec.template.spec, q.mem.claim.spec)
    && match q.pc
       case PersistClaim =>
         && q.mem.key !in s.claims && q.mem.key !in s.jobs && !Available(q.mem) && q.mem.job.uid == 0
         && q.mem.claim.uid == 0 && q.mem.claim.labels == q.pool.spec.template.labels
         && q.mem.claim.controller == Some(PoolOwner(q.pool.uid)) && q.mem.claim.spec.volumeName == None
       case PersistJob =>
         && CreatedAt(s, q.pool, q.mem.key) && q.mem.key !in s.jobs && q.mem.job.uid == 0
         && q.mem.job.owner == q.mem.claim.uid
         && q.mem.claim == s.claims[q.mem.key]
       case Ready =>
         && CreatedAt(s, q.pool, q.mem.key) && q.mem.claim == s.claims[q.mem.key]
         && q.mem.key in s.jobs && s.jobs[q.mem.key] == q.mem.job && q.mem.job.outcome == Running
         && q.mem.job.owner == q.mem.claim.uid
       case _ => false
  }

  lemma CreateStep(s0: Cluster, s: Cluster, q: ReplicaProc, listing: seq<Key>)
    requires CreateInv(s0, s, q) && NextReplicaCall(q).Some?
    ensures var (s', r) := Serve(s, NextReplicaCall(q).value, listing); CreateInv(s0, s', ResumeReplica(q, r))
  {
    hide OnlyAt, Sound, Available, ServePutClaim;
    var k := q.mem.key;
    if q.pc == PersistClaim {
      CreateClaimAt(s, k, q.mem.claim);
      OnlyAtThen(s0, s, ServePutClaim(s, k, q.mem.claim).0, k);
    } else {
      PutJobOnlyAt(s, k, q.mem.job);
      OnlyAtThen(s0, s, ServePutJob(s, k, q.mem.job).0, k);
    }
  }

  lemma {:induction false} CreateRun(s: Cluster, p: ReplicaProc, log: seq<Exchange>)
    requires CreateInv(s, s, p) && ReplayReplica(p, log).Some? && Served(s, log).Some?
    ensures var q := ReplayReplica(p, log).value;
      CreateInv(s, Served(s, log).value, q) && q.pool == p.pool && q.mem.key == p.mem.key
  {
    hide CreateInv, Serve, ResumeReplica, NextReplicaCall, Fits;
    if log != [] {
      var n := |log| - 1;
      CreateRun(s, p, log[..n]);
      var l := if log[n].resp.GotKeys? then log[n].resp.keys else [];
      CreateStep(s, Served(s, log[..n]).value, ReplayReplica(p, log[..n]).value, l);
      ResumedSame(ReplayReplica(p, log[..n]).value, log[n].resp);
    }
  }

  /** Loading under a free name finds nothing. */
  lemma {:induction false} LoadsNothing(s: Cluster, pool: Pool, k: Key, log: seq<Exchange>)
    requires k !in s.claims && k !in s.jobs
    requires ReplayReplica(StartReplica(pool, k), log).Some? && Served(s, log).Some?
    ensures Served(s, log) == Some(s)
    ensures var q := ReplayReplica(StartReplica(pool, k), log).value;
      q == StartReplica(pool, k).(pc := q.pc) && (q.pc == LoadJob || q.pc == LoadClaim || q.pc == Gone)
  {
    hide ServePutClaim;
    if log != [] {
      LoadsNothing(s, pool, k, log[..|log| - 1]);
      hide Fits;
    }
  }

  lemma CreateStart(s: Cluster, pool: Pool, k: Key)
    requires Sound(s) && k !in s.claims && k !in s.jobs
    ensures var p := Persisting(ReplicaProc(pool, Ready, ConfiguredReplica(pool.spec, NewReplica(k))));
      CreateInv(s, s, p) && p.pool == pool && p.mem.key == k
  {
    hide Sound, OnlyAt, ConfiguredReplica, Persisting, Available;
    var r := ConfiguredReplica(pool.spec, NewReplica(k));
    NewConfigured(pool, k);
    NewPersisting(pool, r);
    PersistingSame(ReplicaProc(pool, Ready, r));
    Untouched(s, k);
  }

  /** Applying a replica under a free name, undisturbed, adds exactly that one, with the
      claim and the init job that the pool asks for, and what the code holds is what is
      in the cluster. */
  lemma CreateAdds(s: Cluster, pool: Pool, k: Key, before: seq<Exchange>, mid: seq<Exchange>, now: seq<Exchange>,
                   l: ReplicaProc, q: ReplicaProc, s': Cluster)
    requires Sound(s) && k !in s.claims && k !in s.jobs && k.namespace == pool.key.namespace
    requires Matches(pool.spec.selector, pool.spec.template.labels)
    requires before <= mid <= now && ReplicaAfter(StartReplica(pool, k), before, mid) == Some(l) && Idle(l)
    requires ReplicaAfter(Persisting(ReplicaProc(pool, Ready, ConfiguredReplica(pool.spec, l.mem))), mid, now) == Some(q)
    requires q.pc == Ready && Served(s, now[|before|..]) == Some(s')
    ensures Sound(s') && OnlyAt(s, s', k) && k !in Counted(s, pool) && Counted(s', pool) == Counted(s, pool) + {k}
    ensures q.mem.key == k && Mirrors(s', pool, q.mem) && !Stale(q.mem) && !Available(q.mem)
    ensures k in s'.claims && AsksAsTold(pool.spec.template.spec, s'.claims[k].spec)
    ensures k in s'.jobs && s'.jobs[k].owner == s'.claims[k].uid && AskedFor(pool.spec, k.name, s'.jobs[k])
  {
    hide Sound, OnlyAt, Persisting, ConfiguredReplica, Served, ReplayReplica, Matches, CreatedAt, Available, AskedFor,
      AsksAsTold;
    var (a, b) := (mid[|before|..], now[|mid|..]);
    assert now[|before|..] == a + b;
    ServedThen(s, a, b);
    LoadsNothing(s, pool, k, a);
    CreateStart(s, pool, k);
    CreateRun(s, Persisting(ReplicaProc(pool, Ready, ConfiguredReplica(pool.spec, NewReplica(k)))), b);
    CreatedCounts(s', pool, k);
    CreatedHolds(s, s', pool, q);
    OthersCount(s, s', pool, k);
    NotCounted(s, pool, k);
    hide Counts, CreateInv;
    SomewhereCounts(s', pool, k);
    assert Counted(s, pool) - {k} == Counted(s, pool);
    assert Counted(s', pool) == Counted(s', pool) - {k} + {k};
  }

  /** And it does not fail. */
  lemma CreateSucceeds(s: Cluster, pool: Pool, k: Key, before: seq<Exchange>, mid: seq<Exchange>, now: seq<Exchange>)
    requires Sound(s) && k !in s.claims && k !in s.jobs && before <= mid <= now && Served(s, now[|before|..]).Some?
    requires ReplicaAfter(StartReplica(pool, k), before, mid).Some?
    ensures var l := ReplicaAfter(StartReplica(pool, k), before, mid).value;
      && l.pc != Broken
      && var q := ReplicaAfter(Persisting(ReplicaProc(pool, Ready, ConfiguredReplica(pool.spec, l.mem))), mid, now);
      (q.Some? ==> q.value.pc != Broken)
  {
    hide Sound, OnlyAt, Persisting, ConfiguredReplica, Served, ReplayReplica, CreatedAt, Available;
    var (a, b) := (mid[|before|..], now[|mid|..]);
    assert now[|before|..] == a + b;
    ServedThen(s, a, b);
    LoadsNothing(s, pool, k, a);
    CreateStart(s, pool, k);
    var p := Persisting(ReplicaProc(pool, Ready, ConfiguredReplica(pool.spec, NewReplica(k))));
    if ReplicaAfter(p, mid, now).Some? {
      CreateRun(s, p, b);
    }
  }

  lemma CreatedHolds(s: Cluster, s': Cluster, pool: Pool, q: ReplicaProc)
    requires CreateInv(s, s', q) && q.pc == Ready && q.pool == pool && Counts(s', pool, q.mem.key)
    ensures Mirrors(s', pool, q.mem) && !Stale(q.mem) && !Available(q.mem)
    ensures var k := q.mem.key;
      && k in s'.claims && AsksAsTold(pool.spec.template.spec, s'.claims[k].spec)
      && k in s'.jobs && s'.jobs[k].owner == s'.claims[k].uid && AskedFor(pool.spec, k.name, s'.jobs[k])
  {
    hide OnlyAt, Sound, Counts, AskedFor, AsksAsTold;
  }

  // ---------------------------------------------------------- what requests change

  lemma SoundNext(s: Cluster)
    requires Sound(s)
    ensures s.next != 0
  {
  }

  lemma PutJobOnlyAt(s: Cluster, k: Key, o: Job)
    requires Sound(s)
    ensures var (s', r) := ServePutJob(s, k, o);
      && OnlyAt(s, s', k) && Sound(s') && s'.claims == s.claims
      && (r.StoredJob? ==> k in s'.jobs && s'.jobs[k] == r.job && r.job.outcome == Running)
      && (r.Refused? ==> s' == s) && (r.Refused? || r.StoredJob?)
      && (k !in s.jobs && o.uid == 0 ==> r.StoredJob?)
      && (JobAt(s', k).outcome.Failed? ==> JobAt(s, k).outcome.Failed?)
  {
    SoundNext(s);
    hide Sound, OnlyAt;
    var (s', r) := ServePutJob(s, k, o);
    if s' == s {
      Untouched(s, k);
    } else {
      JobSet(s, s', k, r.job);
    }
  }

  lemma KeptOn(s: Cluster, s1: Cluster, s2: Cluster, pool: Pool, k: Key)
    requires KeptAt(s, s1, pool, k) && s2.claims == s1.claims
    requires JobAt(s2, k).outcome.Failed? ==> JobAt(s1, k).outcome.Failed?
    ensures KeptAt(s, s2, pool, k)
  {
    hide JobAt, Overlay;
  }

  /** Dropping the job that is known to be the one there, if any. */
  lemma DropJobOnlyAt(s: Cluster, k: Key, uid: Uid)
    requires Sound(s) && (k in s.jobs ==> s.jobs[k].uid == uid)
    ensures var (s', r) := ServeDropJob(s, k, uid);
      && OnlyAt(s, s', k) && Sound(s') && s'.claims == s.claims && r.Dropped? && k !in s'.jobs
  {
    hide Sound;
    DropJobAny(s, k, uid);
    hide OnlyAt;
  }

  lemma DropJobAny(s: Cluster, k: Key, uid: Uid)
    requires Sound(s)
    ensures var (s', r) := ServeDropJob(s, k, uid);
      && OnlyAt(s, s', k) && Sound(s') && s'.claims == s.claims && (r.Dropped? || r.Refused?)
      && (r.Dropped? ==> k !in s'.jobs)
  {
    hide Sound, OnlyAt;
    var s' := ServeDropJob(s, k, uid).0;
    if s' == s {
      Untouched(s, k);
    } else {
      JobCut(s, s', k);
    }
  }

  lemma DropClaimAny(s: Cluster, k: Key, uid: Uid)
    requires Sound(s)
    ensures var (s', r) := ServeDropClaim(s, k, uid);
      && OnlyAt(s, s', k) && Sound(s') && (r.Dropped? || r.Refused?)
      && (r.Dropped? && k in s'.claims ==> s'.claims[k].deleting)
  {
    hide Sound, OnlyAt;
    var s' := ServeDropClaim(s, k, uid).0;
    if s' == s {
      Untouched(s, k);
    } else {
      SoundClaim(s, k);
      ClaimSet(s, s', k, s'.claims[k]);
    }
  }

  lemma CreateClaimAt(s: Cluster, k: Key, o: Claim)
    requires Sound(s) && k !in s.claims && o.uid == 0 && o.spec.volumeName == None
    ensures var (s', r) := ServePutClaim(s, k, o);
      && OnlyAt(s, s', k) && Sound(s') && s'.jobs == s.jobs && r.StoredClaim? && k in s'.claims && s'.claims[k] == r.claim
      && s'.claims[k].phase == Pending && !s'.claims[k].deleting
      && s'.claims[k].labels == o.labels && s'.claims[k].controller == o.controller && s'.claims[k].spec == o.spec
  {
    SoundNext(s);
    hide Sound, OnlyAt;
    var (s', r) := ServePutClaim(s, k, o);
    ClaimSet(s, s', k, r.claim);
  }

  lemma NotCounted(s: Cluster, pool: Pool, k: Key)
    requires k in s.claims ==> s.claims[k].deleting || ReplicaAt(s, k) == None
    ensures k !in Counted(s, pool)
  {
    hide Matches;
  }

  lemma SomewhereCounts(s: Cluster, pool: Pool, k: Key)
    requires Counts(s, pool, k)
    ensures k in Counted(s, pool)
  {
    hide ReplicaAt, BucketOf, Matches;
  }
}
