/** The replicas a pool's controller holds, and the cluster: what they agree on as long
    as nobody else changes anything. */
module Tracking {
  import opened Labels
  import opened Kube
  import R = Replica
  import Checkouts
  import opened Client
  import opened PoolReplicas
  import opened Counting

  ghost function Names(prs: set<PoolReplica>): set<Key> {
    set pr | pr in prs :: pr.key
  }

  /** The live replicas are as in the cluster, under different names; the dead ones are
      not among those that count there. */
  ghost predicate Mirrored(s: Cluster, pool: Pool, live: set<PoolReplica>, dead: set<PoolReplica>)
    reads live, dead
  {
    && Sound(s) && Matches(pool.spec.selector, pool.spec.template.labels)
    && (forall pr | pr in live :: pr.pool == pool && Mirrors(s, pool, pr.State()))
    && (forall a, b | a in live && b in live && a.key == b.key :: a == b)
    && (forall pr | pr in dead :: pr.pool == pool && Lost(s, pool, pr.State()))
  }

  /** It was loaded and is known, but it does not count, if it is there at all. */
  ghost predicate Lost(s: Cluster, pool: Pool, r: R.Replica) {
    r.claim.uid != 0 && Known(s, r) && r.key !in Counted(s, pool)
  }

  /** And the live ones are all that count. */
  ghost predicate InStep(s: Cluster, pool: Pool, live: set<PoolReplica>, dead: set<PoolReplica>)
    reads live, dead
  {
    Mirrored(s, pool, live, dead) && Counted(s, pool) == Names(live)
  }

  /** Nothing has this name. */
  ghost predicate Spare(s: Cluster, k: Key, dead: set<PoolReplica>) {
    k !in s.claims && k !in s.jobs && forall pr | pr in dead :: pr.key != k
  }

  /** So far the same replicas count as at the start of the book, and its spare name is
      spare. */
  ghost predicate AtFirst(s: Cluster, pool: Pool, book: Ledger, dead: set<PoolReplica>) {
    Counted(s, pool) == Counted(book.start, pool) && Spare(s, book.spare, dead)
  }

  /** What happened under one name leaves the replicas with other names as they are. */
  lemma MirroredElsewhere(s: Cluster, s': Cluster, pool: Pool, live: set<PoolReplica>, dead: set<PoolReplica>, k: Key)
    requires Mirrored(s, pool, live, dead) && OnlyAt(s, s', k) && Sound(s')
    requires forall pr | pr in live :: pr.key != k
    requires forall pr | pr in dead :: pr.key !in Counted(s', pool) && (pr.key == k ==> Shrinks(s, s', k))
    ensures Mirrored(s', pool, live, dead)
  {
    hide Counted, Sound, Mirrors, Matches, OnlyAt, Known, Shrinks;
    forall pr | pr in live ensures Mirrors(s', pool, pr.State()) {
      MirrorsElsewhere(s, s', pool, k, pr.State());
    }
    forall pr | pr in dead ensures Lost(s', pool, pr.State()) {
      StillKnown(s, s', k, pr.State());
    }
  }

  /** One live replica more, or again. */
  lemma MirroredMore(s: Cluster, pool: Pool, live: set<PoolReplica>, dead: set<PoolReplica>, pr: PoolReplica)
    requires Mirrored(s, pool, live, dead) && pr.pool == pool && Mirrors(s, pool, pr.State())
    requires forall p | p in live :: p.key != pr.key
    ensures Mirrored(s, pool, live + {pr}, dead)
  {
    hide Counted, Sound, Mirrors, Matches;
  }

  lemma MirroredLess(s: Cluster, pool: Pool, live: set<PoolReplica>, dead: set<PoolReplica>, pr: PoolReplica)
    requires InStep(s, pool, live, dead) && pr in live
    ensures Mirrored(s, pool, live - {pr}, dead) && pr !in dead
    ensures pr.pool == pool && Mirrors(s, pool, pr.State()) && pr.key in Counted(s, pool)
    ensures forall p | p in live - {pr} :: p.key != pr.key
    ensures Names(live - {pr}) == Names(live) - {pr.key} && live - {pr} + {pr} == live
  {
    hide Counted, Sound, Mirrors, Matches;
    assert pr.key in Names(live);
  }

  /** It was as r and was persisted by the calls between these moments. */
  ghost predicate PersistedBy(pool: Pool, r: R.Replica, pr: PoolReplica, before: seq<Exchange>, now: seq<Exchange>)
    reads pr
  {
    var q := ReplicaAfter(R.Persisting(R.ReplicaProc(pool, R.Ready, r)), before, now);
    q.Some? && q.value.pc == R.Ready && q.value.mem == pr.State()
  }

  /** These calls led it to fail. */
  ghost predicate Fails(p: R.ReplicaProc, before: seq<Exchange>, now: seq<Exchange>) {
    var q := ReplicaAfter(p, before, now);
    q.Some? && q.value.pc == R.Broken
  }

  /** Persisting a live replica: the rest being as before, all are as in the cluster. */
  lemma PersistInStep(s: Cluster, s': Cluster, pool: Pool, rest: set<PoolReplica>, dead: set<PoolReplica>, pr: PoolReplica,
                      r: R.Replica, before: seq<Exchange>, now: seq<Exchange>)
    requires Mirrored(s, pool, rest, dead) && Mirrors(s, pool, r) && r.key == pr.key && pr.pool == pool
    requires Counted(s, pool) == Names(rest + {pr}) && forall p | p in rest :: p.key != pr.key
    requires PersistedBy(pool, r, pr, before, now) && Served(s, now[|before|..]) == Some(s')
    ensures OnlyAt(s, s', pr.key) && InStep(s', pool, rest + {pr}, dead)
  {
    hide Counted, Sound, Mirrors, Matches, OnlyAt, R.Persisting, Served, R.ReplayReplica;
    PersistKeeps(s, pool, r, before, now, ReplicaAfter(R.Persisting(R.ReplicaProc(pool, R.Ready, r)), before, now).value, s');
    hide ReplicaAfter;
    MirroredElsewhere(s, s', pool, rest, dead, pr.key);
    MirroredMore(s', pool, rest, dead, pr);
  }

  /** Deleting a live replica. */
  lemma RemoveInStep(s: Cluster, s': Cluster, pool: Pool, live: set<PoolReplica>, dead: set<PoolReplica>, pr: PoolReplica,
                     before: seq<Exchange>, now: seq<Exchange>)
    requires InStep(s, pool, live, dead) && pr in live
    requires DeletedBy(pr, before, now) && Served(s, now[|before|..]) == Some(s')
    ensures InStep(s', pool, live - {pr}, dead)
  {
    hide Served, R.ReplayReplica, Counts;
    MirroredLess(s, pool, live, dead, pr);
    hide Counted, Sound, Mirrors, Matches, OnlyAt, R.Deleting;
    RemoveTakes(s, pool, pr.State(), before, now, ReplicaAfter(R.Deleting(pr.At(R.Ready)), before, now).value, s');
    hide ReplicaAfter;
    MirroredElsewhere(s, s', pool, live - {pr}, dead, pr.key);
  }

  /** Deleting a dead one. */
  lemma BuryInStep(s: Cluster, s': Cluster, pool: Pool, live: set<PoolReplica>, dead: set<PoolReplica>, pr: PoolReplica,
                   before: seq<Exchange>, now: seq<Exchange>)
    requires InStep(s, pool, live, dead) && pr in dead
    requires DeletedBy(pr, before, now) && Served(s, now[|before|..]) == Some(s')
    ensures InStep(s', pool, live, dead)
  {
    hide Counted, Sound, Mirrors, Matches, OnlyAt, R.Deleting, Served, R.ReplayReplica;
    RemoveTakes(s, pool, pr.State(), before, now, ReplicaAfter(R.Deleting(pr.At(R.Ready)), before, now).value, s');
    hide ReplicaAfter;
    assert Counted(s, pool) - {pr.key} == Counted(s, pool);
    forall p | p in live ensures p.key != pr.key {
      assert p.key in Names(live);
    }
    MirroredElsewhere(s, s', pool, live, dead, pr.key);
  }

  /** Deleting either does not fail. */
  lemma DeletesKnown(s: Cluster, pool: Pool, live: set<PoolReplica>, dead: set<PoolReplica>, pr: PoolReplica,
                     before: seq<Exchange>, now: seq<Exchange>)
    requires InStep(s, pool, live, dead) && (pr in live || pr in dead)
    requires before <= now && Fails(R.Deleting(pr.At(R.Ready)), before, now)
    ensures Served(s, now[|before|..]) == None
  {
    hide Counted, Sound, Matches, R.Deleting, Served, ReplicaAfter, Mirrors;
    if Served(s, now[|before|..]).Some? {
      if pr in live {
        MirrorsKnown(s, pool, pr.State());
      }
      hide Known;
      RemoveSucceeds(s, pool, pr.State(), before, now);
    }
  }

  lemma MirrorsKnown(s: Cluster, pool: Pool, r: R.Replica)
    requires Sound(s) && Mirrors(s, pool, r)
    ensures Known(s, r) && r.claim.uid != 0
  {
    hide Matches;
  }

  lemma FewerDead(s: Cluster, pool: Pool, live: set<PoolReplica>, dead: set<PoolReplica>, fewer: set<PoolReplica>)
    requires InStep(s, pool, live, dead) && fewer <= dead
    ensures InStep(s, pool, live, fewer)
  {
    hide Counted, Sound, Mirrors, Matches;
  }

  /** Creating one under a spare name. */
  lemma CreateInStep(s: Cluster, s': Cluster, pool: Pool, live: set<PoolReplica>, dead: set<PoolReplica>, pr: PoolReplica,
                     before: seq<Exchange>, mid: seq<Exchange>, now: seq<Exchange>)
    requires InStep(s, pool, live, dead) && Spare(s, pr.key, dead)
    requires pr.pool == pool && pr.key.namespace == pool.key.namespace
    requires Applied(pool, pr.key, before, mid, now, pr.State(), false) && Served(s, now[|before|..]) == Some(s')
    ensures InStep(s', pool, live + {pr}, dead) && !pr.Stale() && !pr.Available()
  {
    hide Counted, Sound, Mirrors, Matches, OnlyAt, R.Persisting, Served, R.ConfiguredReplica, R.Stale, R.Available,
      R.ReplayReplica;
    var l := ReplicaAfter(R.StartReplica(pool, pr.key), before, mid).value;
    var start := R.ReplicaProc(pool, R.Ready, R.ConfiguredReplica(pool.spec, l.mem));
    CreateAdds(s, pool, pr.key, before, mid, now, l, ReplicaAfter(R.Persisting(start), mid, now).value, s');
    hide ReplicaAfter;
    forall p | p in live ensures p.key != pr.key {
      assert p.key in Names(live);
    }
    MirroredElsewhere(s, s', pool, live, dead, pr.key);
    MirroredMore(s', pool, live, dead, pr);
  }

  /** If nobody else has changed the cluster since the book was opened, these replicas
      are in step with it; and, before the scaling step, they are those of the start. */
  ghost predicate InTouch(pool: Pool, live: set<PoolReplica>, dead: set<PoolReplica>, log: seq<Exchange>, book: Ledger,
                          first: bool)
    reads live, dead
  {
    && book.base <= |log|
    && var s := book.Now(log);
    s.Some? ==> InStep(s.value, pool, live, dead) && (first ==> AtFirst(s.value, pool, book, dead))
  }

  /** A cluster the book may be opened with: sound, its pool's template matches its
      selector, and the spare name is free. */
  ghost predicate Startable(pool: Pool, book: Ledger) {
    && Sound(book.start) && Matches(pool.spec.selector, pool.spec.template.labels)
    && book.spare !in book.start.claims && book.spare !in book.start.jobs
  }

  /** The same, all but for one live replica, which was as r. */
  ghost predicate Aside(pool: Pool, r: R.Replica, rest: set<PoolReplica>, dead: set<PoolReplica>, log: seq<Exchange>,
                        book: Ledger)
    reads rest, dead
  {
    && book.base <= |log|
    && var s := book.Now(log);
    s.Some? ==>
      && Mirrored(s.value, pool, rest, dead) && Mirrors(s.value, pool, r)
      && Counted(s.value, pool) == Names(rest) + {r.key} && (forall p | p in rest :: p.key != r.key)
      && AtFirst(s.value, pool, book, dead)
  }

  lemma SetAside(pool: Pool, live: set<PoolReplica>, dead: set<PoolReplica>, pr: PoolReplica, log: seq<Exchange>,
                 book: Ledger)
    requires pr in live && InTouch(pool, live, dead, log, book, true)
    ensures Aside(pool, pr.State(), live - {pr}, dead - {pr}, log, book)
    ensures book.Now(log).Some? ==> pr !in dead
  {
    hide Counted, Sound, Mirrors, Matches, Ledger.Now;
    if book.Now(log).Some? {
      MirroredLess(book.Now(log).value, pool, live, dead, pr);
      assert dead - {pr} == dead;
    }
  }

  lemma PersistInTouch(pool: Pool, rest: set<PoolReplica>, dead: set<PoolReplica>, pr: PoolReplica, r: R.Replica,
                       before: seq<Exchange>, now: seq<Exchange>, book: Ledger)
    requires Aside(pool, r, rest, dead - {pr}, before, book) && (book.Now(before).Some? ==> pr !in dead)
    requires r.key == pr.key && pr.pool == pool
    requires PersistedBy(pool, r, pr, before, now) && before <= now
    ensures InTouch(pool, rest + {pr}, dead, now, book, true)
  {
    hide Counted, Sound, Mirrors, Matches, OnlyAt, PersistedBy, Served;
    book.NowThen(before, now);
    if book.Now(now).Some? {
      var s, s' := book.Now(before).value, book.Now(now).value;
      assert dead - {pr} == dead;
      PersistInStep(s, s', pool, rest, dead, pr, r, before, now);
      SpareStill(s, s', book.spare, pr.key, pool, dead);
    }
  }

  /** Undisturbed, persisting a live replica does not fail. */
  lemma PersistCannotFail(pool: Pool, rest: set<PoolReplica>, dead: set<PoolReplica>, r: R.Replica,
                          before: seq<Exchange>, now: seq<Exchange>, book: Ledger)
    requires Aside(pool, r, rest, dead, before, book) && before <= now
    requires Fails(R.Persisting(R.ReplicaProc(pool, R.Ready, r)), before, now)
    ensures book.Now(now) == None
  {
    hide Counted, Sound, Mirrors, Matches, R.Persisting, Served, ReplicaAfter;
    book.NowThen(before, now);
    if book.Now(now).Some? {
      PersistSucceeds(book.Now(before).value, pool, r, before, now);
    }
  }

  /** Nor does deleting one, live or dead. */
  lemma DeleteCannotFail(pool: Pool, live: set<PoolReplica>, dead: set<PoolReplica>, pr: PoolReplica,
                         before: seq<Exchange>, now: seq<Exchange>, book: Ledger)
    requires InTouch(pool, live, dead, before, book, false) && (pr in live || pr in dead) && before <= now
    requires Fails(R.Deleting(pr.At(R.Ready)), before, now)
    ensures book.Now(now) == None
  {
    hide InStep, Fails, Served, AtFirst;
    book.NowThen(before, now);
    if book.Now(now).Some? {
      DeletesKnown(book.Now(before).value, pool, live, dead, pr, before, now);
    }
  }

  /** Nor does creating one under the spare name. */
  lemma CreateCannotFail(pool: Pool, live: set<PoolReplica>, dead: set<PoolReplica>, r: R.Replica, before: seq<Exchange>,
                         mid: seq<Exchange>, now: seq<Exchange>, book: Ledger)
    requires InTouch(pool, live, dead, before, book, true) && before <= now
    requires Applied(pool, book.spare, before, mid, now, r, true)
    ensures book.Now(now) == None
  {
    hide Counted, Mirrors, R.Persisting, Served, ReplicaAfter, R.ConfiguredReplica, Counting.Sound;
    book.NowThen(before, now);
    if book.Now(now).Some? {
      var s := book.Now(before).value;
      hide Sound, InStep, Spare, AtFirst, Matches;
      AppliedIn(pool, book.spare, before, mid, now, r, true);
      CreateSucceeds(s, pool, book.spare, before, mid, now);
    }
  }

  lemma AppliedIn(pool: Pool, k: Key, before: seq<Exchange>, mid: seq<Exchange>, now: seq<Exchange>, r: R.Replica, failed: bool)
    requires Applied(pool, k, before, mid, now, r, failed)
    ensures before <= mid <= now
  {
    hide R.ReplayReplica, R.ConfiguredReplica, R.Persisting;
  }

  /** Nor does loading, if every bound volume refers to a claim. */
  lemma LoadCannotFail(pool: Pool, before: seq<Exchange>, now: seq<Exchange>, q: Checkouts.Scan, book: Ledger)
    requires book.base == |before| && ScanAfter(Checkouts.StartScan(pool), before, now) == Some(q)
    requires Referring(book.start) && q.pc == Checkouts.ScanFailed
    ensures book.Now(now) == None
  {
    hide Served, Checkouts.ReplayScan, Referring;
    if book.Now(now).Some? {
      var listing := ServedScan(book.start, pool, now[|before|..], q);
    }
  }

  /** A live replica is deleted. */
  lemma RemoveInTouch(pool: Pool, live: set<PoolReplica>, dead: set<PoolReplica>, pr: PoolReplica, before: seq<Exchange>,
                      now: seq<Exchange>, book: Ledger)
    requires InTouch(pool, live, dead, before, book, false) && pr in live && DeletedBy(pr, before, now) && before <= now
    ensures InTouch(pool, live - {pr}, dead, now, book, false)
  {
    hide InStep, DeletedBy, Served, AtFirst;
    book.NowThen(before, now);
    if book.Now(now).Some? {
      RemoveInStep(book.Now(before).value, book.Now(now).value, pool, live, dead, pr, before, now);
    }
  }

  /** A dead replica is deleted, and some are forgotten. */
  lemma BuryInTouch(pool: Pool, live: set<PoolReplica>, dead: set<PoolReplica>, fewer: set<PoolReplica>, pr: PoolReplica,
                    before: seq<Exchange>, now: seq<Exchange>, book: Ledger)
    requires InTouch(pool, live, dead, before, book, false) && pr in dead && DeletedBy(pr, before, now) && before <= now
    requires fewer <= dead
    ensures InTouch(pool, live, fewer, now, book, false)
  {
    hide InStep, DeletedBy, Served, AtFirst;
    book.NowThen(before, now);
    if book.Now(now).Some? {
      BuryInStep(book.Now(before).value, book.Now(now).value, pool, live, dead, pr, before, now);
      FewerDead(book.Now(now).value, pool, live, dead, fewer);
    }
  }

  /** The replica was applied under the spare name by the calls between these moments. */
  ghost predicate AppliedSpare(pr: PoolReplica, before: seq<Exchange>, mid: seq<Exchange>, now: seq<Exchange>, book: Ledger)
    reads pr
  {
    book.spare == pr.key && before <= now && Applied(pr.pool, pr.key, before, mid, now, pr.State(), false)
  }

  /** A replica is created under the spare name. */
  lemma CreateInTouch(pool: Pool, live: set<PoolReplica>, dead: set<PoolReplica>, pr: PoolReplica, before: seq<Exchange>,
                      mid: seq<Exchange>, now: seq<Exchange>, book: Ledger)
    requires InTouch(pool, live, dead, before, book, true) && AppliedSpare(pr, before, mid, now, book)
    requires pr.pool == pool && pr.key.namespace == pool.key.namespace
    ensures book.base <= |before| && before <= now
    ensures InTouch(pool, live + {pr}, dead, now, book, false)
    ensures book.Now(now).Some? ==> !pr.Stale() && !pr.Available()
  {
    hide InStep, Applied, R.Stale, R.Available, Served, Counted;
    book.NowThen(before, now);
    if book.Now(now).Some? {
      CreateInStep(book.Now(before).value, book.Now(now).value, pool, live, dead, pr, before, mid, now);
    }
  }

  /** In step with the cluster, except that these live ones were as rs. */
  ghost predicate Besides(pool: Pool, rs: seq<R.Replica>, rest: set<PoolReplica>, dead: set<PoolReplica>,
                          log: seq<Exchange>, book: Ledger)
    reads rest, dead
  {
    && book.base <= |log|
    && var s := book.Now(log);
    s.Some? ==>
      && Mirrored(s.value, pool, rest, dead) && (forall r | r in rs :: Mirrors(s.value, pool, r))
      && Counted(s.value, pool) == Names(rest) + Keys(rs) && (forall p | p in rest :: p.key !in Keys(rs))
      && AtFirst(s.value, pool, book, dead)
  }

  /** Different replicas, different names. */
  ghost predicate WellNamed(prs: set<PoolReplica>) {
    forall a, b | a in prs && b in prs && a.key == b.key :: a == b
  }

  lemma PutAside(pool: Pool, live: set<PoolReplica>, dead: set<PoolReplica>, prs: seq<PoolReplica>, some: set<PoolReplica>,
                 log: seq<Exchange>, book: Ledger)
    requires InTouch(pool, live, dead, log, book, true) && some == (set pr | pr in prs) && some <= live
    ensures Besides(pool, States(prs), live - some, dead - some, log, book)
    ensures book.Now(log).Some? ==> dead - some == dead && WellNamed(some)
  {
    hide Sound, Mirrors, Matches, Ledger.Now, Counts;
    StatesKeys(prs);
    if book.Now(log).Some? {
      var s := book.Now(log).value;
      assert live - some + some == live;
      assert Names(live) == Names(live - some) + Names(some);
      assert forall p | p in some :: p.key in Names(live);
      assert dead - some == dead;
    }
  }

  lemma {:induction false} NamesOf(t: seq<PoolReplica>)
    requires forall i, j | 0 <= i < j < |t| :: t[i].key != t[j].key
    ensures |Names(set pr | pr in t)| == |t|
  {
    if t != [] {
      var n := |t| - 1;
      NamesOf(t[..n]);
      assert t == t[..n] + [t[n]];
      assert (set pr | pr in t) == (set pr | pr in t[..n]) + {t[n]};
      assert Names(set pr | pr in t) == Names(set pr | pr in t[..n]) + {t[n].key};
    }
  }

  lemma StatesIn(prs: seq<PoolReplica>)
    ensures forall pr | pr in prs :: pr.State() in States(prs)
  {
    forall pr | pr in prs ensures pr.State() in States(prs) {
      var i :| 0 <= i < |prs| && prs[i] == pr;
      assert States(prs)[i] == pr.State();
    }
  }

  /** Where it is listed. */
  lemma ListedAt(prs: seq<PoolReplica>, pr: PoolReplica) returns (i: nat)
    requires pr in prs
    ensures i < |prs| && prs[i] == pr && States(prs)[i].key == pr.key && States(prs)[i] in States(prs)
  {
    i :| 0 <= i < |prs| && prs[i] == pr;
  }

  lemma StatesKeys(prs: seq<PoolReplica>)
    ensures Keys(States(prs)) == Names(set pr | pr in prs)
  {
    var rs := States(prs);
    forall k ensures k in Keys(rs) <==> k in Names(set pr | pr in prs) {
      if k in Keys(rs) {
        var i :| 0 <= i < |rs| && rs[i].key == k;
        assert prs[i] in prs;
      }
      if pr :| pr in prs && pr.key == k {
        var i :| 0 <= i < |prs| && prs[i] == pr;
        assert rs[i].key == k;
      }
    }
  }

  /** Configuring them. */
  lemma ConfigureInTouch(pool: Pool, was: seq<R.Replica>, live: set<PoolReplica>, dead: set<PoolReplica>,
                         prs: seq<PoolReplica>, some: set<PoolReplica>, log: seq<Exchange>, book: Ledger)
    requires some == (set pr | pr in prs) && some <= live
    requires Besides(pool, was, live - some, dead - some, log, book) && |prs| == |was|
    requires forall i | 0 <= i < |prs| ::
      prs[i].pool == pool && prs[i].key == was[i].key && prs[i].State() == R.ConfiguredReplica(pool.spec, was[i])
    requires book.Now(log).Some? ==> dead - some == dead && WellNamed(some)
    ensures InTouch(pool, live, dead, log, book, true)
  {
    hide Sound, Mirrors, Matches, R.ConfiguredReplica, Counted, Ledger.Now;
    assert live - some + some == live;
    if book.Now(log).Some? {
      var s := book.Now(log).value;
      forall pr | pr in prs ensures pr.pool == pool && Mirrors(s, pool, pr.State()) && pr.key in Keys(was) {
        var i :| 0 <= i < |prs| && prs[i] == pr;
        assert was[i] in was;
        ConfigureMirrors(s, pool, was[i]);
      }
      StatesKeys(prs);
      assert Keys(States(prs)) == Keys(was);
      assert Names(live) == Names(live - some) + Names(some);
    }
  }

  lemma SpareStill(s: Cluster, s': Cluster, spare: Key, k: Key, pool: Pool, dead: set<PoolReplica>)
    requires Spare(s, spare, dead) && OnlyAt(s, s', k) && k in Counted(s, pool) && Sound(s')
    ensures Spare(s', spare, dead)
  {
    hide Counts;
    StillFree(s, s', k, spare);
  }
}
