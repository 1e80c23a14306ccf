/** Looking into a pool: the three lists are an exact partition of its usable
    replicas, and a checkout takes one that no other available one predates. */
module Selection {
  import opened Labels
  import opened Kube
  import opened Replica
  import opened Checkouts

  // -------------------------------------------------------------- what is there

  function JobAt(s: Cluster, k: Key): Job {
    if k in s.jobs then s.jobs[k] else NEW_JOB
  }

  /** The replica at k, if there is one: a bound claim counts only with a volume
      that refers back to it. */
  function ReplicaAt(s: Cluster, k: Key): Option<Replica> {
    if k !in s.claims then None
    else
      var c := s.claims[k];
      if c.phase != Bound then Some(Replica(k, c, None, JobAt(s, k)))
      else if c.spec.volumeName.None? || c.spec.volumeName.value !in s.volumes then None
      else
        var v := s.volumes[c.spec.volumeName.value];
        if v.spec.claimRef.Some? && v.spec.claimRef.value.uid == c.uid
        then Some(Replica(k, c, Some(NamedVolume(c.spec.volumeName.value, v)), JobAt(s, k))) else None
  }

  datatype Bucket = ToInitializing | ToAvailable | ToStale | ToNobody

  function BucketOf(pool: Pool, r: Replica): Bucket {
    if r.claim.controller != None && r.claim.controller != Some(PoolOwner(pool.uid)) then ToNobody
    else if Stale(r) then ToStale
    else if Available(r) then ToAvailable
    else ToInitializing
  }

  /** r is a replica in the cluster, belongs to one of `keys`, and to this bucket. */
  predicate Lands(s: Cluster, pool: Pool, keys: seq<Key>, r: Replica, b: Bucket) {
    r.key in keys && ReplicaAt(s, r.key) == Some(r) && BucketOf(pool, r) == b
  }

  predicate Distinct(rs: seq<Replica>) {
    forall i, j | 0 <= i < j < |rs| :: rs[i].key != rs[j].key
  }

  /** The lists hold exactly the replicas among `keys`, each once. */
  ghost predicate Exact(s: Cluster, pool: Pool, keys: seq<Key>, q: Scan) {
    && (forall r :: r in q.initializing <==> Lands(s, pool, keys, r, ToInitializing))
    && (forall r :: r in q.available <==> Lands(s, pool, keys, r, ToAvailable))
    && (forall r :: r in q.stale <==> Lands(s, pool, keys, r, ToStale))
    && Distinct(q.initializing) && Distinct(q.available) && Distinct(q.stale)
  }

  // ----------------------------------------------------------- an undisturbed scan

  /** Nobody writes while these calls are answered. */
  ghost predicate Quiet(s: Cluster, listing: seq<Key>, log: seq<Exchange>) {
    forall i | 0 <= i < |log| :: log[i].resp == Serve(s, log[i].req, listing).1
  }

  ghost predicate Loading(s: Cluster, pool: Pool, p: ReplicaProc, k: Key) {
    && p.pool == pool
    && match p.pc
       case LoadJob => p.mem == NewReplica(k)
       case LoadClaim => p.mem == NewReplica(k).(job := JobAt(s, k))
       case LoadVolume =>
         && k in s.claims && s.claims[k].phase == Bound
         && p.mem == NewReplica(k).(job := JobAt(s, k), claim := s.claims[k])
       case _ => false
  }

  /** Where the scan stands: what is behind it is sorted, what is ahead is not. */
  ghost predicate Midway(s: Cluster, pool: Pool, listing: seq<Key>, q: Scan) {
    && q.pool == pool
    && match q.pc
       case Listing => q == StartScan(pool)
       case Reading =>
         && IsListing(s, pool.key.namespace, pool.spec.selector, listing)
         && |q.todo| < |listing|
         && var n := |listing| - |q.todo| - 1;
         && q.todo == listing[n + 1..]
         && Loading(s, pool, q.cur, listing[n])
         && Exact(s, pool, listing[..n], q)
       case Scanned =>
         && IsListing(s, pool.key.namespace, pool.spec.selector, listing)
         && Exact(s, pool, listing, q)
       case ScanFailed => true
  }

  /** One call: the replica is still loading, or is what the cluster says it is. */
  lemma LoadsWhatIsThere(s: Cluster, pool: Pool, p: ReplicaProc, k: Key, listing: seq<Key>)
    requires Loading(s, pool, p, k)
    ensures NextReplicaCall(p).Some?
    ensures var q := ResumeReplica(p, Serve(s, NextReplicaCall(p).value, listing).1);
      match q.pc
      case Ready => ReplicaAt(s, k) == Some(q.mem)
      case Gone => ReplicaAt(s, k) == None
      case Broken => true
      case _ => Loading(s, pool, q, k)
  {
    hide ServePutClaim;
  }

  lemma NextKeyStands(s: Cluster, pool: Pool, listing: seq<Key>, n: nat, q: Scan)
    requires q.pool == pool && IsListing(s, pool.key.namespace, pool.spec.selector, listing)
    requires n <= |listing| && q.todo == listing[n..] && Exact(s, pool, listing[..n], q)
    ensures Midway(s, pool, listing, NextKey(q))
  {
    if n < |listing| {
      assert q.todo[0] == listing[n] && q.todo[1..] == listing[n + 1..];
    } else {
      assert listing[..n] == listing;
    }
  }

  /** One more key: only the replica found there lands anew. */
  lemma LandsNext(s: Cluster, pool: Pool, keys: seq<Key>, k: Key, r: Replica, r': Replica, b: Bucket)
    requires k !in keys && ReplicaAt(s, k) == Some(r)
    ensures Lands(s, pool, keys + [k], r', b) <==> Lands(s, pool, keys, r', b) || (r' == r && BucketOf(pool, r) == b)
  {
    assert r.key == k;
    hide BucketOf;
  }

  lemma AppendDistinct(rs: seq<Replica>, r: Replica)
    requires Distinct(rs) && forall r' | r' in rs :: r'.key != r.key
    ensures Distinct(rs + [r])
  {
    forall i, j | 0 <= i < j < |rs + [r]| ensures (rs + [r])[i].key != (rs + [r])[j].key {
      assert rs[i] in rs;
    }
  }

  /** Sorting one more replica keeps the partition exact. */
  lemma SortedExact(s: Cluster, pool: Pool, keys: seq<Key>, k: Key, q: Scan, r: Replica)
    requires q.pool == pool && Exact(s, pool, keys, q) && k !in keys && ReplicaAt(s, k) == Some(r)
    ensures Exact(s, pool, keys + [k], Sorted(q, r))
  {
    assert r.key == k;
    forall r' | r' in q.initializing || r' in q.available || r' in q.stale ensures r'.key in keys {
      assert Lands(s, pool, keys, r', BucketOf(pool, r'));
    }
    AppendOnly(s, pool, keys, k, q, r);
    match BucketOf(pool, r)
    case ToInitializing => AppendDistinct(q.initializing, r);
    case ToAvailable => AppendDistinct(q.available, r);
    case ToStale => AppendDistinct(q.stale, r);
    case ToNobody =>
  }

  lemma AppendOnly(s: Cluster, pool: Pool, keys: seq<Key>, k: Key, q: Scan, r: Replica)
    requires q.pool == pool && Exact(s, pool, keys, q) && k !in keys && ReplicaAt(s, k) == Some(r)
    ensures var q' := Sorted(q, r);
      && (forall r' :: r' in q'.initializing <==> Lands(s, pool, keys + [k], r', ToInitializing))
      && (forall r' :: r' in q'.available <==> Lands(s, pool, keys + [k], r', ToAvailable))
      && (forall r' :: r' in q'.stale <==> Lands(s, pool, keys + [k], r', ToStale))
  {
    hide ReplicaAt, Stale, Available, Lands;
    forall r' ensures var q' := Sorted(q, r);
      && (r' in q'.initializing <==> Lands(s, pool, keys + [k], r', ToInitializing))
      && (r' in q'.available <==> Lands(s, pool, keys + [k], r', ToAvailable))
      && (r' in q'.stale <==> Lands(s, pool, keys + [k], r', ToStale))
    {
      LandsNext(s, pool, keys, k, r, r', ToInitializing);
      LandsNext(s, pool, keys, k, r, r', ToAvailable);
      LandsNext(s, pool, keys, k, r, r', ToStale);
    }
  }

  lemma MissingExact(s: Cluster, pool: Pool, keys: seq<Key>, k: Key, q: Scan)
    requires Exact(s, pool, keys, q) && ReplicaAt(s, k) == None
    ensures Exact(s, pool, keys + [k], q)
  {
    hide ReplicaAt, BucketOf;
  }

  lemma ListStep(s: Cluster, pool: Pool, listing: seq<Key>, q: Scan)
    requires Midway(s, pool, listing, q) && q.pc == Listing
    ensures Midway(s, pool, listing, ResumeScan(q, Serve(s, NextScanCall(q).value, listing).1))
  {
    hide NextKey, Lands, ResumeReplica, Continue, ServePutClaim;
    if IsListing(s, pool.key.namespace, pool.spec.selector, listing) {
      assert listing[..0] == [] && Exact(s, pool, [], q) by {
        NothingLands(s, pool);
      }
      NextKeyStands(s, pool, listing, 0, q.(todo := listing));
    }
    hide IsListing, Distinct;
  }

  lemma NothingLands(s: Cluster, pool: Pool)
    ensures forall r, b :: !Lands(s, pool, [], r, b)
  {
  }

  lemma NotListedTwice(s: Cluster, pool: Pool, listing: seq<Key>, n: nat)
    requires IsListing(s, pool.key.namespace, pool.spec.selector, listing) && n < |listing|
    ensures listing[n] !in listing[..n]
  {
  }

  lemma ScanStep(s: Cluster, pool: Pool, listing: seq<Key>, q: Scan)
    requires Midway(s, pool, listing, q) && NextScanCall(q).Some?
    ensures Midway(s, pool, listing, ResumeScan(q, Serve(s, NextScanCall(q).value, listing).1))
  {
    hide ResumeReplica, Serve, Midway, ResumeScan, NextReplicaCall;
    if q.pc == Listing {
      ListStep(s, pool, listing, q);
    } else {
      ReadStep(s, pool, listing, q);
    }
  }

  lemma ReadStep(s: Cluster, pool: Pool, listing: seq<Key>, q: Scan)
    requires Midway(s, pool, listing, q) && q.pc == Reading && NextScanCall(q).Some?
    ensures Midway(s, pool, listing, ResumeScan(q, Serve(s, NextScanCall(q).value, listing).1))
  {
    hide ResumeReplica, Serve, NextReplicaCall, ReplicaAt, Loading, Lands, Distinct, IsListing;
    var n := |listing| - |q.todo| - 1;
    var k := listing[n];
    LoadsWhatIsThere(s, pool, q.cur, k, listing);
    var cur := ResumeReplica(q.cur, Serve(s, NextReplicaCall(q.cur).value, listing).1);
    assert listing[..n + 1] == listing[..n] + [k];
    NotListedTwice(s, pool, listing, n);
    if cur.pc == Ready {
      SortedExact(s, pool, listing[..n], k, q, cur.mem);
      NextKeyStands(s, pool, listing, n + 1, Sorted(q, cur.mem));
    } else if cur.pc == Gone {
      MissingExact(s, pool, listing[..n], k, q);
      NextKeyStands(s, pool, listing, n + 1, q);
    }
  }

  lemma ScanStarts(s: Cluster, pool: Pool, listing: seq<Key>)
    ensures Midway(s, pool, listing, StartScan(pool))
  {
    hide Lands;
  }

  lemma MidwayFacts(s: Cluster, pool: Pool, listing: seq<Key>, q: Scan)
    requires Midway(s, pool, listing, q)
    ensures q.pool == pool
    ensures q.pc == Reading ==> q.cur.pc == LoadJob || q.cur.pc == LoadClaim || q.cur.pc == LoadVolume
  {
    hide Exact, IsListing;
  }

  /** How many calls the scan still makes. */
  function CallsLeft(q: Scan): nat {
    match q.pc
    case Reading => 3 * |q.todo| + (if q.cur.pc == LoadJob then 3 else if q.cur.pc == LoadClaim then 2 else 1)
    case _ => 0
  }

  lemma LoadGoesOn(s: Cluster, pool: Pool, p: ReplicaProc, k: Key, listing: seq<Key>)
    requires Loading(s, pool, p, k) && Referring(s) && NextReplicaCall(p).Some?
    ensures var q := ResumeReplica(p, Serve(s, NextReplicaCall(p).value, listing).1);
      && q.pc != Broken
      && (p.pc == LoadJob ==> q.pc == LoadClaim)
      && (p.pc == LoadClaim ==> q.pc == LoadVolume || q.pc == Ready || q.pc == Gone)
      && (p.pc == LoadVolume ==> q.pc == Ready || q.pc == Gone)
  {
    hide NewReplica, ServePutClaim;
  }

  /** Each call brings the scan nearer to its end, and none makes it fail. */
  lemma ScanGoesOn(s: Cluster, pool: Pool, listing: seq<Key>, q: Scan)
    requires Midway(s, pool, listing, q) && (q.pc == Listing || q.pc == Reading) && Referring(s)
    requires IsListing(s, pool.key.namespace, pool.spec.selector, listing)
    ensures NextScanCall(q).Some?
    ensures var q' := ResumeScan(q, Serve(s, NextScanCall(q).value, listing).1);
      && Midway(s, pool, listing, q')
      && (q'.pc == Scanned || (q'.pc == Reading && (q.pc == Reading ==> CallsLeft(q') < CallsLeft(q))))
  {
    hide Exact, Loading, IsListing, Serve, ResumeReplica, NextReplicaCall, Referring, Sorted;
    if q.pc == Listing {
      ListAnswered(s, pool, listing, q);
    } else {
      var n := |listing| - |q.todo| - 1;
      LoadsWhatIsThere(s, pool, q.cur, listing[n], listing);
      LoadGoesOn(s, pool, q.cur, listing[n], listing);
      LoadingAt(s, pool, q.cur, listing[n]);
      SortedTodo(q, ResumeReplica(q.cur, Serve(s, NextReplicaCall(q.cur).value, listing).1).mem);
    }
    ScanStep(s, pool, listing, q);
  }

  lemma ListAnswered(s: Cluster, pool: Pool, listing: seq<Key>, q: Scan)
    requires q.pc == Listing && q.pool == pool && IsListing(s, pool.key.namespace, pool.spec.selector, listing)
    ensures NextScanCall(q) == Some(ListClaims(pool.key.namespace, pool.spec.selector))
    ensures Serve(s, NextScanCall(q).value, listing).1 == GotKeys(listing)
  {
    hide IsListing, ServePutClaim;
  }

  lemma LoadingAt(s: Cluster, pool: Pool, p: ReplicaProc, k: Key)
    requires Loading(s, pool, p, k)
    ensures p.pc == LoadJob || p.pc == LoadClaim || p.pc == LoadVolume
  {
  }

  lemma SortedTodo(q: Scan, r: Replica)
    ensures Sorted(q, r).todo == q.todo && Sorted(q, r).pool == q.pool
  {
  }

  lemma {:induction false} ScanStands(s: Cluster, pool: Pool, listing: seq<Key>, log: seq<Exchange>, q: Scan)
    requires Quiet(s, listing, log) && ReplayScan(StartScan(pool), log) == Some(q)
    ensures Midway(s, pool, listing, q)
  {
    hide ResumeScan, Serve, Kube.Fits, Exact;
    if log != [] {
      var n := |log| - 1;
      var q' := ReplayScan(StartScan(pool), log[..n]).value;
      ScanStands(s, pool, listing, log[..n], q');
      ScanStep(s, pool, listing, q');
    }
  }

  // -------------------------------------------------------------- the main results

  /** r is for the pool to use: there, in its namespace, matched by its selector, owned
      by the pool or by nobody. */
  ghost predicate Usable(s: Cluster, pool: Pool, r: Replica) {
    && r.key in s.claims
    && r.key.namespace == pool.key.namespace && Matches(pool.spec.selector, s.claims[r.key].labels)
    && ReplicaAt(s, r.key) == Some(r)
    && (r.claim.controller == None || r.claim.controller == Some(PoolOwner(pool.uid)))
  }

  /** r is on offer: usable, neither lost nor going nor failed, with its volume, and
      marked available. */
  ghost predicate Offered(s: Cluster, pool: Pool, r: Replica) {
    && Usable(s, pool, r)
    && !r.claim.deleting && r.claim.phase != Lost && !r.job.outcome.Failed?
    && r.volume.Some? && PHASE_KEY in r.claim.annotations && r.claim.annotations[PHASE_KEY] == AVAILABLE
  }

  /** Loading a pool that nobody disturbs partitions its usable replicas exactly: stale
      are those whose claim is being deleted or lost or whose init job failed, and of
      the others those are available that have a volume and the mark. */
  lemma LoadPartitions(s: Cluster, pool: Pool, listing: seq<Key>, log: seq<Exchange>, q: Scan, r: Replica)
    requires Quiet(s, listing, log) && ReplayScan(StartScan(pool), log) == Some(q) && q.pc == Scanned
    ensures r in q.available <==> Offered(s, pool, r)
    ensures r in q.stale <==>
      Usable(s, pool, r) && (r.claim.deleting || r.claim.phase == Lost || r.job.outcome.Failed?)
    ensures r in q.initializing <==>
      && Usable(s, pool, r) && !r.claim.deleting && r.claim.phase != Lost && !r.job.outcome.Failed?
      && (r.volume.None? || PHASE_KEY !in r.claim.annotations || r.claim.annotations[PHASE_KEY] != AVAILABLE)
    ensures Distinct(q.initializing) && Distinct(q.available) && Distinct(q.stale)
  {
    hide ReplayScan, Serve;
    ScanStands(s, pool, listing, log, q);
  }

  /** The replica a checkout takes from a pool is on offer, and none on offer was
      created earlier; the checkout goes without only if nothing is on offer. */
  lemma OldestTaken(s: Cluster, pool: Pool, listing: seq<Key>, log: seq<Exchange>, p: Proc)
    requires Quiet(s, listing, log) && ReplayScan(StartScan(pool), log) == Some(p.scan) && p.scan.pc == Scanned
    ensures AfterScan(p).pc == Choosing <==> exists r :: Offered(s, pool, r)
    ensures AfterScan(p).pc != Choosing ==> AfterScan(p).pc == Abandoned
    ensures forall i: nat | Oldest(p.scan.available, i) ::
      && Offered(s, pool, p.scan.available[i])
      && (forall r | Offered(s, pool, r) :: p.scan.available[i].claim.created <= r.claim.created)
      && Chosen(p, i).seen.lockedVolume == p.scan.available[i].volume
  {
    hide ReplayScan, Serve;
    forall r ensures r in p.scan.available <==> Offered(s, pool, r) {
      LoadPartitions(s, pool, listing, log, p.scan, r);
    }
    hide Offered, Configured;
    if p.scan.available != [] {
      assert p.scan.available[0] in p.scan.available;
    }
  }

  /** Two pools that see the same cluster share no replica unless its claim has no
      owner, whatever their selectors. */
  lemma PoolsDisjoint(s: Cluster, a: Pool, b: Pool, la: seq<Key>, lb: seq<Key>, loga: seq<Exchange>, logb: seq<Exchange>,
                      qa: Scan, qb: Scan, r: Replica)
    requires a.uid != b.uid
    requires Quiet(s, la, loga) && ReplayScan(StartScan(a), loga) == Some(qa) && qa.pc == Scanned
    requires Quiet(s, lb, logb) && ReplayScan(StartScan(b), logb) == Some(qb) && qb.pc == Scanned
    requires r in qa.initializing + qa.available + qa.stale && r in qb.initializing + qb.available + qb.stale
    ensures r.key in s.claims && s.claims[r.key].controller == None
  {
    hide ReplayScan, Serve;
    LoadPartitions(s, a, la, loga, qa, r);
    LoadPartitions(s, b, lb, logb, qb, r);
  }
}
