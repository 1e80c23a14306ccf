/** A pool in the hands of its controller: three mutable lists of replicas and the
    conditions to report. */
module PoolStates {
  import opened Labels
  import opened Kube
  import R = Replica
  import Checkouts
  import opened Conditions
  import opened Client
  import opened PoolReplicas
  import opened Counting
  import opened Tracking
  import Selection

  datatype PoolCondition = PoolAvailable | PoolSettlement

  const NO_REPLICAS_REQUESTED := Condition(FALSE, "NoReplicasRequested", "The pool has no replicas configured.", 0)
  const MINIMUM_AVAILABLE :=
    Condition(TRUE, "MinimumReplicasAvailable", "One or more replicas are available to be checked out.", 0)
  const SETTLED := Condition(TRUE, "Settled", "All requested replicas are available to be checked out.", 0)
  const INVALID := Condition(FALSE, "Invalid", "A PVC could not be created because of configuration problems", 0)
  const INIT_JOB_FAILED := Condition(UNKNOWN, "InitJobFailed", "A PVC could not be initialized because its job failed", 0)

  type Conds = map<PoolCondition, Condition>

  predicate Reports(conds: Conds, kind: PoolCondition) {
    kind in conds && conds[kind].status == TRUE
  }

  /** How many replicas a pool asks for. */
  function Requested(pool: Pool): int {
    if pool.spec.replicas.Some? then pool.spec.replicas.value else 1
  }

  /** Every replica is listed once. */
  ghost predicate Once(m: multiset<PoolReplica>) {
    forall pr | pr in m :: m[pr] == 1
  }

  lemma OnceMore(m: multiset<PoolReplica>, pr: PoolReplica)
    requires Once(m) && pr !in m
    ensures Once(m + multiset{pr})
  {
  }

  /** Two places of one list hold two replicas. */
  lemma AllSeparate(s: seq<PoolReplica>, m: multiset<PoolReplica>)
    requires Once(m) && multiset(s) <= m
    ensures forall i, j | 0 <= i < j < |s| :: s[i] != s[j]
  {
    forall i, j | 0 <= i < j < |s| ensures s[i] != s[j] {
      Twice(s, i, j);
      assert s[j] in m;
    }
  }

  lemma Twice<T>(s: seq<T>, i: nat, j: nat)
    requires i < j < |s|
    ensures multiset(s)[s[j]] >= if s[i] == s[j] then 2 else 1
  {
    assert s == s[..j] + [s[j]] + s[j + 1..];
    assert s[i] in multiset(s[..j]) by { assert s[i] == s[..j][i]; }
  }

  /** A listed replica is nowhere else. */
  lemma OnlyHere(s: seq<PoolReplica>, rest: seq<PoolReplica>, i: nat, m: multiset<PoolReplica>)
    requires Once(m) && multiset(s) + multiset(rest) <= m && i < |s|
    ensures s[i] in m && s[i] !in s[..i] && s[i] !in s[i + 1..] && s[i] !in rest
  {
    var t := s[..i] + s[i + 1..] + rest;
    assert s == s[..i] + [s[i]] + s[i + 1..];
    assert multiset(s) + multiset(rest) == multiset(t) + multiset{s[i]};
    assert s[i] in m;
    assert multiset(t)[s[i]] == 0;
  }

  lemma StatesAppend(prs: seq<PoolReplica>, pr: PoolReplica)
    ensures States(prs + [pr]) == States(prs) + [pr.State()]
  {
  }

  /** A swap-removal at i leaves what is before i in place and loses nothing else
      behind it. */
  lemma SwapRemoved<T>(s: seq<T>, i: nat)
    requires i < |s|
    ensures var t := s[i := s[|s| - 1]][..|s| - 1];
      && t[..i] == s[..i] && multiset(t[i..]) == multiset(s[i + 1..])
      && multiset(t) + multiset{s[i]} == multiset(s)
  {
    var n := |s| - 1;
    var t := s[i := s[n]][..n];
    assert s == s[..i] + [s[i]] + s[i + 1..];
    assert t == s[..i] + t[i..];
    if i < n {
      var m := s[i + 1..n];
      assert t[i..] == [s[n]] + m && s[i + 1..] == m + [s[n]];
    }
  }

  /** The scan is about to load the i-th of the keys, or is through. */
  ghost predicate Stands(pool: Pool, q: Checkouts.Scan, keys: seq<Key>, i: nat)
    requires i <= |keys|
  {
    && q.pool == pool
    && if i < |keys|
       then q.pc == Checkouts.Reading && q.todo == keys[i + 1..] && q.cur == R.StartReplica(pool, keys[i])
       else q.pc == Checkouts.Scanned
  }

  /** The scan after one more replica: the next key, and the replica in its list. */
  lemma NextStands(q: Checkouts.Scan, c: R.ReplicaProc, keys: seq<Key>, i: nat)
    requires i < |keys| && Stands(q.pool, q, keys, i) && R.Idle(c)
    ensures var n := Checkouts.Continue(q, c);
      && Stands(q.pool, n, keys, i + 1)
      && var s := if c.pc == R.Ready then Checkouts.Sorted(q, c.mem) else q;
      n.initializing == s.initializing && n.available == s.available && n.stale == s.stale
  {
  }

  /** The lists with one more replica are those of the scan with one more. */
  lemma Placed(i: seq<PoolReplica>, a: seq<PoolReplica>, s: seq<PoolReplica>, pr: PoolReplica, q: Checkouts.Scan)
    requires States(i) == q.initializing && States(a) == q.available && States(s) == q.stale
    requires pr.claim.controller == None || pr.claim.controller == Some(PoolOwner(q.pool.uid))
    ensures var q' := Checkouts.Sorted(q, pr.State());
      && q'.pool == q.pool
      && States(if !pr.Stale() && !pr.Available() then i + [pr] else i) == q'.initializing
      && States(if !pr.Stale() && pr.Available() then a + [pr] else a) == q'.available
      && States(if pr.Stale() then s + [pr] else s) == q'.stale
  {
    StatesAppend(i, pr);
    StatesAppend(a, pr);
    StatesAppend(s, pr);
  }

  lemma BrokenFails(q: Checkouts.Scan, c: R.ReplicaProc)
    requires c.pc == R.Broken
    ensures Checkouts.Continue(q, c).pc == Checkouts.ScanFailed
  {
  }

  class PoolState {
    const pool: Pool
    const initializing: PoolReplicas
    const available: PoolReplicas
    const stale: PoolReplicas
    var conds: Conds

    constructor (pool: Pool)
      ensures Valid() && Bag() == multiset{} && conds == map[] && this.pool == pool
      ensures fresh(initializing) && fresh(available) && fresh(stale)
    {
      this.pool := pool;
      initializing := new PoolReplicas();
      available := new PoolReplicas();
      stale := new PoolReplicas();
      conds := map[];
    }

    /** Everything listed, with its multiplicity. */
    ghost function Bag(): multiset<PoolReplica>
      reads initializing, available, stale
    {
      multiset(initializing.items) + multiset(available.items) + multiset(stale.items)
    }

    ghost predicate Valid()
      reads initializing, available, stale
    {
      && initializing != available && initializing != stale && available != stale
      && Once(Bag())
      && forall pr | pr in Bag() :: pr.pool == pool
    }

    lemma NothingListed()
      ensures Bag() == multiset{} ==> |available.items| + |initializing.items| + |stale.items| == 0
    {
      assert |Bag()| == |available.items| + |initializing.items| + |stale.items|;
    }

    // ------------------------------------------------------- what is in the cluster

    ghost function Live(): set<PoolReplica>
      reads initializing, available
    {
      initializing.Members() + available.Members()
    }

    /** The lists are in touch with the cluster. */
    ghost predicate Tracks(log: seq<Exchange>, book: Ledger, first: bool)
      reads initializing, available, stale, initializing.items, available.items, stale.items
    {
      InTouch(pool, Live(), stale.Members(), log, book, first)
    }

    /** The lists are still in touch, as many as `was` counted at the start, and the
        replica created is a live one. */
    ghost predicate Stepped(log: seq<Exchange>, book: Ledger, was: nat, gained: PoolReplica?)
      reads initializing, available, stale, initializing.items, available.items, stale.items, gained
    {
      && Tracks(log, book, false)
      && (book.Now(log).Some? ==> |Counted(book.start, pool)| == was && (gained != null ==> !gained.Stale()))
    }

    /** Without an error the lists are in touch; with one, somebody came in between, or
        it was not sure to go well. */
    ghost predicate Goes(err: Option<Failure>, log: seq<Exchange>, book: Ledger, first: bool, sure: bool)
      reads initializing, available, stale, initializing.items, available.items, stale.items
    {
      if err.None? then Tracks(log, book, first) else sure ==> book.Now(log).None?
    }

    lemma WentWrong(err: Option<Failure>, log: seq<Exchange>, book: Ledger, was: nat, sure: bool)
      ensures err.Some? && Goes(err, log, book, true, true) ==> Steps(err, log, book, was, null, sure)
      ensures err.None? && Goes(err, log, book, true, true) ==> Tracks(log, book, true)
    {
      hide Ledger.Now, InTouch, Counted;
    }

    /** The same for the scaling step. */
    ghost predicate Steps(err: Option<Failure>, log: seq<Exchange>, book: Ledger, was: nat, gained: PoolReplica?, sure: bool)
      reads initializing, available, stale, initializing.items, available.items, stale.items, gained
    {
      if err.None? then Stepped(log, book, was, gained) else sure ==> book.Now(log).None?
    }

    /** What the controller counts is what counts in the cluster. */
    lemma ActualCounts(s: Cluster)
      requires Valid() && InStep(s, pool, Live(), stale.Members())
      ensures Actual() == |Counted(s, pool)|
    {
      hide Counts, Counting.Sound;
      var t := initializing.items + available.items;
      AllSeparate(t, Bag());
      forall i, j | 0 <= i < j < |t| ensures t[i].key != t[j].key {
        assert t[i] in Live() && t[j] in Live();
      }
      NamesOf(t);
      assert Live() == set pr | pr in t;
    }

    /** As many replicas counted at the start. */
    ghost predicate CountsFirst(was: nat, log: seq<Exchange>, book: Ledger) {
      book.Now(log).Some? ==> |Counted(book.start, pool)| == was
    }

    lemma CountedFirst(log: seq<Exchange>, book: Ledger)
      requires Valid()
      ensures Tracks(log, book, true) ==> book.base <= |log| && CountsFirst(Actual(), log, book)
    {
      hide InStep, Counted, Valid, Spare, Ledger.Now, Mirrors, Counting.Sound;
      if Tracks(log, book, true) && book.Now(log).Some? {
        ActualCounts(book.Now(log).value);
      }
    }

    // ----------------------------------------------------------------- loading

    /** The three lists are those of the scan. */
    ghost predicate Lists(q: Checkouts.Scan)
      reads initializing, available, stale, initializing.items, available.items, stale.items
    {
      && q.pool == pool
      && States(initializing.items) == q.initializing
      && States(available.items) == q.available
      && States(stale.items) == q.stale
    }

    /** Adds a replica to the list its state says. */
    method Place(pr: PoolReplica)
      requires Valid() && pr !in Bag() && pr.pool == pool
      modifies initializing, available, stale
      ensures Valid() && Bag() == old(Bag()) + multiset{pr}
      ensures stale.items == if pr.Stale() then old(stale.items) + [pr] else old(stale.items)
      ensures available.items == if !pr.Stale() && pr.Available() then old(available.items) + [pr] else old(available.items)
      ensures initializing.items
           == if !pr.Stale() && !pr.Available() then old(initializing.items) + [pr] else old(initializing.items)
      ensures pr in stale.items <==> pr.claim.deleting || pr.claim.phase == Lost || pr.job.outcome.Failed?
      ensures pr in available.items ==>
        pr.volume.Some? && R.PHASE_KEY in pr.claim.annotations && pr.claim.annotations[R.PHASE_KEY] == R.AVAILABLE
      ensures pr in initializing.items ==>
        pr.volume.None? || R.PHASE_KEY !in pr.claim.annotations || pr.claim.annotations[R.PHASE_KEY] != R.AVAILABLE
    {
      OnceMore(Bag(), pr);
      hide Once, R.Stale, R.Available;
      if pr.Stale() {
        stale.Append(pr);
      } else if pr.Available() {
        available.Append(pr);
      } else {
        initializing.Append(pr);
      }
      assert Bag() == old(Bag()) + multiset{pr};
    }

    /** Puts a loaded replica where it belongs. */
    method Sort(pr: PoolReplica, ghost q: Checkouts.Scan)
      requires Valid() && pr !in Bag() && pr.pool == pool && Lists(q)
      requires pr.claim.controller == None || pr.claim.controller == Some(PoolOwner(pool.uid))
      modifies initializing, available, stale
      ensures Valid() && Bag() == old(Bag()) + multiset{pr}
      ensures Lists(Checkouts.Sorted(q, pr.State()))
    {
      hide Once, Valid, Bag, States, Checkouts.Sorted, R.Stale, R.Available;
      Placed(initializing.items, available.items, stale.items, pr, q);
      Place(pr);
    }

    /** Loads one listed replica and sorts it in, if it is still there. */
    method LoadReplica(api: Client, k: Key, ghost q: Checkouts.Scan) returns (err: Option<Failure>)
      requires Valid() && Lists(q)
      modifies initializing, available, stale, api`calls, api`log
      ensures var c := ReplicaAfter(R.StartReplica(pool, k), old(api.log), api.log);
        && c.Some?
        && (err.Some? <==> c.value.pc == R.Broken)
        && err != Some(NoneAvailable) && err != Some(NameTaken)
        && (err.None? ==>
              && Valid() && R.Idle(c.value)
              && Lists(if c.value.pc == R.Ready then Checkouts.Sorted(q, c.value.mem) else q))
      ensures fresh(set pr | pr in Bag() && pr !in old(Bag()))
    {
      hide ReplicaAfter;
      var pr := new PoolReplica(pool, k);
      assert R.StartReplica(pool, k) == pr.At(R.LoadJob);
      assert Lists(q);
      hide Checkouts.Sorted, Once;
      var ok;
      ok, err := pr.Load(api);
      if err.Some? || !ok {
        return;
      }
      // Another controller with the same selector may own it.
      if pr.claim.controller == None || pr.claim.controller == Some(PoolOwner(pool.uid)) {
        Sort(pr, q);
      } else {
      }
    }

    /** Loads every listed replica, going on where scan q stands. */
    method LoadReplicas(api: Client, keys: seq<Key>, ghost s0: Checkouts.Scan, ghost before: seq<Exchange>)
      returns (err: Option<Failure>)
      requires Valid() && Bag() == multiset{} && ScanAfter(s0, before, api.log).Some?
      requires var q := ScanAfter(s0, before, api.log).value; Lists(q) && Stands(pool, q, keys, 0)
      modifies initializing, available, stale, api`calls, api`log
      ensures var q := ScanAfter(s0, before, api.log);
        && q.Some?
        && (err.Some? <==> q.value.pc == Checkouts.ScanFailed)
        && err != Some(NoneAvailable) && err != Some(NameTaken)
        && (err.None? ==> q.value.pc == Checkouts.Scanned && Lists(q.value) && Valid() && fresh(set pr | pr in Bag()))
    {
      hide ScanAfter, ReplicaAfter, Once, Checkouts.Continue, Checkouts.Sorted, States;
      ghost var q := ScanAfter(s0, before, api.log).value;
      var i := 0;
      while i < |keys|
        invariant i <= |keys| && Valid() && fresh(set pr | pr in Bag())
        invariant ScanAfter(s0, before, api.log) == Some(q) && Lists(q) && Stands(pool, q, keys, i)
      {
        ghost var log1 := api.log;
        err := LoadReplica(api, keys[i], q);
        ghost var c := ReplicaAfter(q.cur, log1, api.log).value;
        ScanStretch(s0, before, log1, api.log, q);
        if err.Some? {
          BrokenFails(q, c);
          return;
        }
        NextStands(q, c, keys, i);
        q := ScanAfter(s0, before, api.log).value;
        i := i + 1;
      }
      return None;
    }

    /** Lists the claims, loads each, sorts them: the calls are those of the scan,
        and on success the lists are its lists, each with what it is for. */
    method Load(api: Client) returns (err: Option<Failure>)
      requires Valid()
      modifies initializing, available, stale, api`calls, api`log
      ensures var q := ScanAfter(Checkouts.StartScan(pool), old(api.log), api.log);
        && q.Some?
        && (err.Some? <==> q.value.pc == Checkouts.ScanFailed)
        && err != Some(NoneAvailable) && err != Some(NameTaken)
        && (err.None? ==> q.value.pc == Checkouts.Scanned && Lists(q.value) && Valid() && fresh(set pr | pr in Bag()))
      ensures err.None? ==>
        Checkouts.WellSorted(States(initializing.items), States(available.items), States(stale.items))
    {
      hide ScanAfter, Stands, Checkouts.WellSorted, Checkouts.StartScan;
      ghost var s0, before := Checkouts.StartScan(pool), api.log;
      var got := api.Call(ListClaims(pool.key.namespace, pool.spec.selector));
      LoadStarts(pool, before, api.log[|before|]);
      if got.Refused? {
        return Some(Api(got.error));
      }
      initializing.items, available.items, stale.items := [], [], [];
      assert States([]) == [];
      err := LoadReplicas(api, got.keys, s0, before);
      LoadSorts(pool, before, api.log);
    }

    /** What was loaded is in step with the cluster if nobody came in between. */
    lemma LoadTracks(before: seq<Exchange>, now: seq<Exchange>, q: Checkouts.Scan, book: Ledger)
      requires Valid() && Lists(q) && q.pc == Checkouts.Scanned && book.base == |before|
      requires ScanAfter(Checkouts.StartScan(pool), before, now) == Some(q)
      requires Startable(pool, book)
      ensures Tracks(now, book, true)
      ensures book.Now(now).Some? ==> book.Now(now) == Some(book.start)
    {
      hide Checkouts.ReplayScan, Served, Sound, Matches, Mirrors, Counted, Once;
      if book.Now(now).Some? {
        ServedLoad(book.start, pool, now[|before|..], q);
        LoadedNames(q);
        LoadedMirrors(book.start, q);
      }
    }

    lemma LoadedNames(q: Checkouts.Scan)
      requires Lists(q) && Selection.Distinct(q.initializing) && Selection.Distinct(q.available)
      requires forall a, b | a in q.initializing && b in q.available :: a.key != b.key
      ensures Names(Live()) == Keys(q.initializing) + Keys(q.available) && WellNamed(Live())
    {
      StatesKeys(initializing.items);
      StatesKeys(available.items);
      assert Names(Live()) == Names(initializing.Members()) + Names(available.Members());
      forall a, b | a in Live() && b in Live() && a.key == b.key ensures a == b {
        if a in initializing.items {
          var i := ListedAt(initializing.items, a);
          if b in initializing.items {
            var j := ListedAt(initializing.items, b);
          } else {
            var j := ListedAt(available.items, b);
          }
        } else {
          var i := ListedAt(available.items, a);
          if b in initializing.items {
            var j := ListedAt(initializing.items, b);
          } else {
            var j := ListedAt(available.items, b);
          }
        }
      }
    }

    lemma LoadedMirrors(s: Cluster, q: Checkouts.Scan)
      requires Valid() && Lists(q)
      requires forall r | r in q.initializing || r in q.available :: Mirrors(s, pool, r)
      requires forall r | r in q.stale :: Uncounted(s, pool, r)
      ensures forall pr | pr in Live() :: pr.pool == pool && Mirrors(s, pool, pr.State())
      ensures forall pr | pr in stale.Members() :: pr.pool == pool && Uncounted(s, pool, pr.State())
    {
      hide Mirrors, Uncounted, Once;
      forall pr | pr in Live() || pr in stale.Members() ensures pr.pool == pool {
        assert pr in Bag();
      }
      StatesIn(initializing.items);
      StatesIn(available.items);
      StatesIn(stale.items);
    }

    /** After the step there is one replica more or less in the cluster. */
    lemma SteppedCounts(log: seq<Exchange>, book: Ledger, was: nat, gained: PoolReplica?)
      requires Valid() && Stepped(log, book, was, gained)
      requires gained == null || !gained.Stale() ==> Actual() == Toward(was, Requested(pool))
      ensures book.Now(log).Some? ==> StepsToward(book.start, pool, book.Now(log).value)
    {
      hide Counted, Once, R.Stale, Toward, Ledger.Now, Mirrors, Counting.Sound;
      if book.Now(log).Some? {
        ActualCounts(book.Now(log).value);
      }
    }

    // ------------------------------------------------------------- configuring

    /** Configures what is still initializing; what is said of the cluster stays true. */
    method Configure(ghost log: seq<Exchange>, ghost book: Ledger)
      requires Valid()
      modifies this`conds, initializing.items
      ensures forall pr | pr in initializing.items :: pr.State() == R.ConfiguredReplica(pool.spec, old(pr.State()))
      ensures conds == if pool.spec.replicas == Some(0) then old(conds)[PoolAvailable := NO_REPLICAS_REQUESTED] else old(conds)
      ensures old(Tracks(log, book, true)) ==> Tracks(log, book, true)
    {
      hide Once, Valid, Bag, R.ConfiguredReplica, InTouch;
      var prs := initializing.items;
      InitializingApart();
      ConfigureListed(prs, initializing.Members(), Live(), stale.Members(), log, book);
      if pool.spec.replicas == Some(0) {
        conds := conds[PoolAvailable := NO_REPLICAS_REQUESTED];
      }
    }

    lemma InitializingApart()
      requires Valid()
      ensures forall pr | pr in initializing.items :: pr.pool == pool
      ensures forall i, j | 0 <= i < j < |initializing.items| :: initializing.items[i] != initializing.items[j]
    {
      AllSeparate(initializing.items, Bag());
      assert forall pr | pr in initializing.items :: pr in Bag();
    }

    /** Configures each of these live replicas. */
    method ConfigureListed(prs: seq<PoolReplica>, ghost some: set<PoolReplica>, ghost live: set<PoolReplica>,
                           ghost dead: set<PoolReplica>, ghost log: seq<Exchange>, ghost book: Ledger)
      requires forall pr | pr in prs :: pr.pool == pool
      requires forall i, j | 0 <= i < j < |prs| :: prs[i] != prs[j]
      requires some == (set pr | pr in prs) && some <= live
      modifies prs
      ensures forall i | 0 <= i < |prs| :: prs[i].State() == R.ConfiguredReplica(pool.spec, old(prs[i].State()))
      ensures old(InTouch(pool, live, dead, log, book, true)) ==> InTouch(pool, live, dead, log, book, true)
    {
      hide R.ConfiguredReplica, InTouch, Besides, WellNamed, Ledger.Now;
      ghost var was, rest, others := States(prs), live - some, dead - some;
      ghost var tracked := InTouch(pool, live, dead, log, book, true);
      if tracked {
        PutAside(pool, live, dead, prs, some, log, book);
        assert Besides(pool, was, rest, others, log, book);
      }
      var i := 0;
      while i < |prs|
        invariant i <= |prs|
        invariant forall j | 0 <= j < |prs| ::
          prs[j].State() == if j < i then R.ConfiguredReplica(pool.spec, was[j]) else was[j]
      {
        ConfigurePoolReplica(prs[i]);
        i := i + 1;
      }
      if tracked {
        assert Besides(pool, was, rest, others, log, book);
        ConfigureInTouch(pool, was, live, dead, prs, some, log, book);
      }
    }

    // ------------------------------------------------------ the initializing list

    /** Persists one live replica. */
    method PersistListed(api: Client, pr: PoolReplica, ghost book: Ledger) returns (err: Option<Failure>)
      requires pr.pool == pool
      modifies pr`claim, pr`job, book`persisted, api`calls, api`log
      ensures book.persisted == old(book.persisted) + [pr]
      ensures pr in Live() && old(Tracks(api.log, book, true)) ==> Goes(err, api.log, book, true, true)
    {
      hide Aside, InTouch, R.Stale, R.Available, R.ReplayReplica, Live, Ledger.Now, R.Persisting;
      ghost var log0, r, live, dead := api.log, pr.State(), Live(), stale.Members();
      ghost var tracked, rest, others := pr in live && Tracks(log0, book, true), live - {pr}, dead - {pr};
      assert pr !in rest && pr !in others;
      if tracked {
        SetAside(pool, live, dead, pr, log0, book);
        assert Aside(pool, r, rest, others, log0, book);
      }
      err := pr.Persist(api, book);
      if tracked {
        assert Aside(pool, r, rest, others, log0, book);
        if err.None? {
          PersistInTouch(pool, rest, dead, pr, r, log0, api.log, book);
          assert rest + {pr} == live;
        } else {
          PersistCannotFail(pool, rest, others, r, log0, api.log, book);
        }
      }
    }

    /** Moving a replica from one of the live lists to the other changes nothing here. */
    lemma MovedLive(was: seq<PoolReplica>, now: seq<PoolReplica>, to: seq<PoolReplica>, pr: PoolReplica)
      requires multiset(now) + multiset{pr} == multiset(was)
      ensures (set p | p in now) + (set p | p in to + [pr]) == (set p | p in was) + (set p | p in to)
    {
      assert forall p :: p in was <==> p in multiset(was);
      assert forall p :: p in now <==> p in multiset(now);
    }

    /** Persists the i-th initializing replica and moves it if it is available. */
    method PersistAt(api: Client, i: nat, ghost book: Ledger) returns (err: Option<Failure>, kept: bool)
      requires i < |initializing.items| && initializing != available && initializing.items[i].pool == pool
      requires stale != initializing && stale != available
      modifies initializing, available, initializing.items[i], book`persisted, api`calls, api`log
      ensures var (pr, was) := (old(initializing.items[i]), old(initializing.items));
        && book.persisted == old(book.persisted) + [pr]
        && (err.None? ==> (kept <==> !pr.Available()))
        && (err.Some? || kept ==> initializing.items == was && available.items == old(available.items))
        && (err.None? && !kept ==>
              && available.items == old(available.items) + [pr]
              && |initializing.items| == |was| - 1 && initializing.items[..i] == was[..i]
              && multiset(initializing.items) + multiset{pr} == multiset(was))
      ensures old(Tracks(api.log, book, true)) ==> Goes(err, api.log, book, true, true)
    {
      hide InTouch, R.Stale, R.Available, Ledger.Now;
      var pr := initializing.items[i];
      err := PersistListed(api, pr, book);
      kept := true;
      if err.None? && pr.Available() {
        SwapRemoved(initializing.items, i);
        ghost var was, to := initializing.items, available.items;
        kept := false;
        available.Append(pr);
        initializing.SwapRemove(i);
        MovedLive(was, initializing.items, to, pr);
      }
    }

    /** The first i of the initializing replicas were persisted and kept, those in
        `moved` were persisted and became available, the others were not persisted. */
    ghost predicate Progress(i: nat, moved: seq<PoolReplica>, all: seq<PoolReplica>, base: seq<PoolReplica>, book: Ledger)
      reads initializing, initializing.items, moved, book
    {
      && i <= |initializing.items|
      && multiset(initializing.items) + multiset(moved) == multiset(all)
      && AllAvailable(initializing.items[..i], false) && AllAvailable(moved, true)
      && Since(base, book.persisted, multiset(initializing.items[..i]) + multiset(moved))
    }

    /** One turn of the loop below. */
    method PersistNext(api: Client, i: nat, ghost moved: seq<PoolReplica>, ghost all: seq<PoolReplica>,
                       ghost base: seq<PoolReplica>, ghost book: Ledger)
      returns (err: Option<Failure>, kept: bool)
      requires initializing != available && stale != initializing && stale != available && Once(multiset(all))
      requires i < |initializing.items| && Progress(i, moved, all, base, book) && initializing.items[i].pool == pool
      modifies initializing, available, initializing.items[i], book`persisted, api`calls, api`log
      ensures err.Some? || kept ==> initializing.items == old(initializing.items) && available.items == old(available.items)
      ensures err.None? && kept ==> Progress(i + 1, moved, all, base, book)
      ensures err.None? && !kept ==>
        && |initializing.items| == |old(initializing.items)| - 1
        && available.items == old(available.items) + [old(initializing.items[i])]
        && Progress(i, moved + [old(initializing.items[i])], all, base, book)
      ensures err.Some? ==>
        && FailedAt(initializing.items, i, moved, base, book)
        && multiset(initializing.items) + multiset(moved) == multiset(all) && AllAvailable(moved, true)
      ensures old(Tracks(api.log, book, true)) ==> Goes(err, api.log, book, true, true)
    {
      hide Once, AllAvailable, Since, R.Available, R.Stale, Tracks, Live, InTouch, Goes;
      ghost var pr, was := initializing.items[i], initializing.items;
      OnlyHere(was, moved, i, multiset(all));
      SinceThen(base, book.persisted, multiset(was[..i]) + multiset(moved), pr);
      err, kept := PersistAt(api, i, book);
      if err.Some? {
      } else if kept {
        AvailableToo(was[..i], pr, false);
        assert was[..i] + [pr] == was[..i + 1];
        assert multiset(was[..i + 1]) + multiset(moved) == multiset(was[..i]) + multiset(moved) + multiset{pr};
      } else {
        AvailableToo(moved, pr, true);
        assert multiset(was[..i]) + multiset(moved + [pr]) == multiset(was[..i]) + multiset(moved) + multiset{pr};
      }
    }

    /** Persists each initializing replica once and moves it to the available ones
        when it is; on an error, `done` replicas were kept before the failing one. */
    method PersistInitializing(api: Client, ghost book: Ledger) returns (err: Option<Failure>, ghost done: nat)
      requires Valid()
      modifies initializing, available, initializing.items, book`persisted, api`calls, api`log
      ensures Valid() && Bag() == old(Bag()) && Actual() == old(Actual())
      ensures old(available.items) <= available.items
      ensures var moved := available.items[|old(available.items)|..];
        && multiset(initializing.items) + multiset(moved) == multiset(old(initializing.items))
        && AllAvailable(moved, true)
        && if err.None? then
             && AllAvailable(initializing.items, false)
             && Since(old(book.persisted), book.persisted, multiset(old(initializing.items)))
           else done < |initializing.items| && FailedAt(initializing.items, done, moved, old(book.persisted), book)
      ensures old(Tracks(api.log, book, true)) ==> Goes(err, api.log, book, true, true)
    {
      hide Ledger.Now, Tracks;
      ghost var all, to, base := initializing.items, available.items, book.persisted;
      ghost var moved;
      assert Once(multiset(all)) by { assert multiset(all) <= Bag(); }
      hide AllAvailable, R.Available, FailedAt, Once;
      err, done, moved := PersistLoop(api, all, base, book);
      assert Bag() == old(Bag());
      assert available.items[|to|..] == moved;
    }

    method PersistLoop(api: Client, ghost all: seq<PoolReplica>, ghost base: seq<PoolReplica>, ghost book: Ledger)
      returns (err: Option<Failure>, ghost done: nat, ghost moved: seq<PoolReplica>)
      requires initializing != available && stale != initializing && stale != available
      requires Once(multiset(all)) && initializing.items == all && book.persisted == base
      requires forall pr | pr in all :: pr.pool == pool
      modifies initializing, available, all, book`persisted, api`calls, api`log
      ensures available.items == old(available.items) + moved && |initializing.items| + |moved| == |all|
      ensures multiset(initializing.items) + multiset(moved) == multiset(all) && AllAvailable(moved, true)
      ensures if err.None? then AllAvailable(initializing.items, false) && Since(base, book.persisted, multiset(all))
              else done < |initializing.items| && FailedAt(initializing.items, done, moved, base, book)
      ensures old(Tracks(api.log, book, true)) ==> Goes(err, api.log, book, true, true)
    {
      hide Progress, AllAvailable, Once, Since, FailedAt, R.Available, Tracks, Ledger.Now;
      var i := 0;
      moved, err := [], None;
      ProgressStart(all, base, book);
      while i < |initializing.items|
        invariant i <= |initializing.items| && err.None? && |initializing.items| + |moved| == |all|
        invariant available.items == old(available.items) + moved
        invariant Progress(i, moved, all, base, book)
        invariant old(Tracks(api.log, book, true)) ==> Tracks(api.log, book, true)
        decreases |initializing.items| - i
      {
        ProgressNext(i, moved, all, base, book);
        ghost var pr := initializing.items[i];
        var kept;
        err, kept := PersistNext(api, i, moved, all, base, book);
        if err.Some? {
          done := i;
          return;
        }
        if kept {
          i := i + 1;
        } else {
          moved := moved + [pr];
        }
      }
      done := i;
      ProgressEnd(moved, all, base, book);
    }

    lemma ProgressStart(all: seq<PoolReplica>, base: seq<PoolReplica>, book: Ledger)
      requires initializing.items == all && book.persisted == base
      ensures Progress(0, [], all, base, book)
    {
    }

    lemma ProgressNext(i: nat, moved: seq<PoolReplica>, all: seq<PoolReplica>, base: seq<PoolReplica>, book: Ledger)
      requires i < |initializing.items| && Progress(i, moved, all, base, book)
      ensures initializing.items[i] in all
    {
      InAll(initializing.items, moved, all, i);
    }

    lemma ProgressEnd(moved: seq<PoolReplica>, all: seq<PoolReplica>, base: seq<PoolReplica>, book: Ledger)
      requires Progress(|initializing.items|, moved, all, base, book)
      ensures multiset(initializing.items) + multiset(moved) == multiset(all)
      ensures AllAvailable(initializing.items, false) && AllAvailable(moved, true) && Since(base, book.persisted, multiset(all))
    {
      assert initializing.items[..|initializing.items|] == initializing.items;
    }

    // -------------------------------------------------------- the available list

    /** Persists one available replica; one is enough to report the pool available. */
    method PersistOneAvailable(api: Client, pr: PoolReplica, ghost book: Ledger) returns (err: Option<Failure>)
      requires pr.pool == pool
      modifies this`conds, pr, book`persisted, api`calls, api`log
      ensures book.persisted == old(book.persisted) + [pr]
      ensures conds == if err.None? then old(conds)[PoolAvailable := MINIMUM_AVAILABLE] else old(conds)
      ensures pr in Live() && old(Tracks(api.log, book, true)) ==> Goes(err, api.log, book, true, true)
    {
      hide InTouch, Goes;
      err := PersistListed(api, pr, book);
      if err.None? {
        conds := conds[PoolAvailable := MINIMUM_AVAILABLE];
      }
    }

    /** Persists the available replicas in order; the first `done` were written
        without an error. */
    method PersistAvailable(api: Client, ghost book: Ledger) returns (err: Option<Failure>, ghost done: nat)
      requires Valid()
      modifies this`conds, available.Members(), book`persisted, api`calls, api`log
      ensures if err.None? then done == |available.items| else done < |available.items|
      ensures conds == if done > 0 then old(conds)[PoolAvailable := MINIMUM_AVAILABLE] else old(conds)
      ensures book.persisted == old(book.persisted) + available.items[..if err.Some? then done + 1 else done]
      ensures old(Tracks(api.log, book, true)) ==> Goes(err, api.log, book, true, true)
    {
      hide Ledger.Now, Tracks;
      var prs := available.items;
      assert forall pr | pr in prs :: pr in Live() && pr.pool == pool by {
        assert forall pr | pr in prs :: pr in Bag();
      }
      hide Once, Valid, Live;
      var i := 0;
      ghost var reported := conds[PoolAvailable := MINIMUM_AVAILABLE];
      assert reported[PoolAvailable := MINIMUM_AVAILABLE] == reported;
      while i < |prs|
        invariant i <= |prs|
        invariant conds == if i > 0 then reported else old(conds)
        invariant book.persisted == old(book.persisted) + prs[..i]
        invariant old(Tracks(api.log, book, true)) ==> Tracks(api.log, book, true)
      {
        assert prs[..i + 1] == prs[..i] + [prs[i]];
        err := PersistOneAvailable(api, prs[i], book);
        if err.Some? {
          return err, i;
        }
        i := i + 1;
      }
      return None, i;
    }

    // ---------------------------------------------------------------- deleting

    /** Everything the pool has, one list after the other. */
    method Delete(api: Client, rng: Rng?, ghost book: Ledger) returns (err: Option<Failure>)
      requires Valid()
      modifies initializing, available, stale, rng, book`deleted, api`calls, api`log
      ensures Valid() && Bag() + book.deleted == old(Bag() + book.deleted)
      ensures err.None? ==> initializing.items == [] && available.items == [] && stale.items == []
    {
      if rng == null {
        return Some(NoRandomness);
      }
      var lists := [initializing, available, stale];
      hide Once;
      var k := 0;
      err := None;
      while k < 3 && err.None?
        invariant k <= 3 && Bag() + book.deleted == old(Bag() + book.deleted) && old(book.deleted) <= book.deleted
        invariant err.None? && k > 0 ==> initializing.items == []
        invariant err.None? && k > 1 ==> available.items == []
        invariant err.None? && k > 2 ==> stale.items == []
        decreases 3 - k
      {
        err := DrainOne(lists[k], api, rng, book);
        k := k + 1;
      }
      Balanced(Bag(), book.deleted, old(Bag()), old(book.deleted));
    }

    // ------------------------------------------------------------------ scaling

    /** Empties one of the three lists. */
    method DrainOne(prs: PoolReplicas, api: Client, rng: Rng, ghost book: Ledger) returns (err: Option<Failure>)
      requires prs == initializing || prs == available || prs == stale
      requires initializing != available && initializing != stale && available != stale
      modifies prs, rng, book`deleted, api`calls, api`log
      ensures Bag() + book.deleted == old(Bag() + book.deleted) && old(book.deleted) <= book.deleted
      ensures err.None? ==> prs.items == []
    {
      ghost var x, d := multiset(prs.items), book.deleted;
      ghost var i, a, s := multiset(initializing.items), multiset(available.items), multiset(stale.items);
      err := Drain(prs, api, rng, book);
      ghost var now := multiset(prs.items);
      if prs == initializing {
        Regroup(now, book.deleted, x, d, a, s);
      } else if prs == available {
        Regroup(now, book.deleted, x, d, i, s);
      } else {
        Regroup(now, book.deleted, x, d, i, a);
      }
    }

    /** How many replicas count toward the request. */
    function Actual(): nat
      reads initializing, available
    {
      |available.items| + |initializing.items|
    }

    /** Creates a replica. */
    method ScaleUp(api: Client, id: string, ghost book: Ledger) returns (err: Option<Failure>, pr: PoolReplica?)
      requires Valid()
      modifies this`conds, initializing, available, stale, book`persisted, api`calls, api`log
      ensures err.None? <==> pr != null
      ensures Valid() && Bag() == old(Bag()) + Only(pr)
      ensures conds == if err == Some(Api(Invalid)) then old(conds)[PoolSettlement := INVALID] else old(conds)
      ensures old(available.items) <= available.items && old(initializing.items) <= initializing.items
      ensures Actual() == old(Actual()) + (if pr != null && !pr.Stale() then 1 else 0)
      ensures pr != null ==>
        && fresh(pr) && pr.key == ReplicaKey(pool, id)
        && (FoundNothing(old(api.log), api.log) ==>
              JustCreated(pool, pr.State()) && initializing.items == old(initializing.items) + [pr])
      ensures old(Tracks(api.log, book, true)) && book.spare == ReplicaKey(pool, id) ==>
        Steps(err, api.log, book, old(Actual()), pr, true)
    {
      hide Once, R.Stale, R.Available, R.ProvisioningSpec, FoundNothing, InTouch, Applied, CountsFirst, Ledger.Now,
        Stepped;
      ghost var was, log0, mid := Actual(), api.log, [];
      CountedFirst(log0, book);
      pr, err, mid := ApplyPoolReplica(api, pool, id, book);
      if err == Some(Api(Invalid)) {
        conds := conds[PoolSettlement := INVALID];
      }
      if err.Some? {
        if old(Tracks(log0, book, true)) && book.spare == pr.key {
          CreateCannotFail(pool, Live(), stale.Members(), pr.State(), log0, mid, api.log, book);
        }
        return err, null;
      }
      PlaceCreated(pr, was, log0, mid, api.log, book);
    }

    /** Lists a replica that was just applied. */
    method PlaceCreated(pr: PoolReplica, ghost was: nat, ghost before: seq<Exchange>, ghost mid: seq<Exchange>,
                        ghost now: seq<Exchange>, ghost book: Ledger)
      requires Valid() && pr !in Bag() && pr.pool == pool && pr.key.namespace == pool.key.namespace
      modifies initializing, available, stale
      ensures Valid() && Bag() == old(Bag()) + multiset{pr}
      ensures old(available.items) <= available.items && old(initializing.items) <= initializing.items
      ensures Actual() == old(Actual()) + (if !pr.Stale() then 1 else 0)
      ensures !pr.Stale() && !pr.Available() ==> initializing.items == old(initializing.items) + [pr]
      ensures old(Tracks(before, book, true)) && CountsFirst(was, before, book) && AppliedSpare(pr, before, mid, now, book) ==>
        Stepped(now, book, was, pr)
    {
      hide Once, R.Stale, R.Available, InTouch, AppliedSpare, CountsFirst, Ledger.Now, Stepped;
      ghost var i, a, s, tracked := initializing.items, available.items, stale.items, Tracks(before, book, true);
      ghost var live, dead := Live(), stale.Members();
      Place(pr);
      if tracked && AppliedSpare(pr, before, mid, now, book) && CountsFirst(was, before, book) {
        CreateInTouch(pool, live, dead, pr, before, mid, now, book);
        CreatedTracks(i, a, s, pr, was, before, now, book);
      }
    }

    /** What was listed and the new one are listed. */
    lemma CreatedTracks(i: seq<PoolReplica>, a: seq<PoolReplica>, s: seq<PoolReplica>, pr: PoolReplica, was: nat,
                        before: seq<Exchange>, log: seq<Exchange>, book: Ledger)
      requires InTouch(pool, (set p | p in i) + (set p | p in a) + {pr}, (set p | p in s), log, book, false)
      requires book.Now(log).Some? ==>
        !pr.Stale() && initializing.items == i + [pr] && available.items == a && stale.items == s
      requires book.base <= |before| && before <= log && CountsFirst(was, before, book)
      ensures Stepped(log, book, was, pr)
    {
      hide R.Stale, InStep, Counted, Served;
      book.NowThen(before, log);
      if book.Now(log).Some? {
        assert Live() == (set p | p in i) + (set p | p in a) + {pr};
      }
    }

    /** Removes one replica, an initializing one if there is any. */
    method ScaleDown(api: Client, rng: Rng?, ghost book: Ledger) returns (err: Option<Failure>)
      requires Valid()
      modifies initializing, available, rng, book`deleted, api`calls, api`log
      ensures Valid() && Bag() + book.deleted == old(Bag() + book.deleted)
      ensures Actual() == old(Actual()) - (if err.None? && old(Actual()) > 0 then 1 else 0)
      ensures if |old(initializing.items)| != 0 then available.items == old(available.items) else |initializing.items| == 0
      ensures err.Some? ==> |available.items| == |old(available.items)|
      ensures old(api.log) <= api.log
      ensures old(Tracks(api.log, book, false)) ==> Goes(err, api.log, book, false, Sure(rng))
    {
      hide InTouch, DeletedBy, Tracks, Ledger.Now;
      if rng == null {
        return Some(NoRandomness);
      }
      ghost var i, a, gone := initializing.items, available.items, null;
      LiveOnce();
      err, gone := RemoveLive(api, rng, book);
      FewerListed(i, a, stale.items, gone);
    }

    lemma LiveOnce()
      requires Once(Bag())
      ensures Once(multiset(initializing.items) + multiset(available.items))
    {
      OnceLess(multiset(initializing.items) + multiset(available.items), multiset(stale.items), Bag());
    }

    lemma LessTracks(i: seq<PoolReplica>, a: seq<PoolReplica>, live: set<PoolReplica>, dead: set<PoolReplica>,
                     gone: PoolReplica, before: seq<Exchange>, now: seq<Exchange>, book: Ledger)
      requires InTouch(pool, live, dead, before, book, false) && DeletedBy(gone, before, now) && before <= now
      requires live == (set pr | pr in i) + (set pr | pr in a) && dead == stale.Members() && Once(multiset(i) + multiset(a))
      requires multiset(initializing.items) + multiset(available.items) + Only(gone) == multiset(i) + multiset(a)
      ensures Tracks(now, book, false)
    {
      hide InTouch, DeletedBy, Once;
      LessLive(i, a, gone);
      RemoveInTouch(pool, live, dead, gone, before, now, book);
    }

    /** Takes a random replica out of a live list and deletes it. */
    method TakeFrom(prs: PoolReplicas, api: Client, rng: Rng, ghost book: Ledger)
      returns (err: Option<Failure>, found: bool, ghost gone: PoolReplica?)
      requires prs == initializing || prs == available
      requires initializing != available && initializing != stale && available != stale
      requires Once(multiset(initializing.items) + multiset(available.items))
      modifies prs, rng, book`deleted, api`calls, api`log
      ensures multiset(prs.items) + Only(gone) == multiset(old(prs.items)) && book.deleted == old(book.deleted) + Only(gone)
      ensures err.None? && !found ==> prs.items == [] && old(prs.items) == []
      ensures gone != null <==> err.None? && found
      ensures |prs.items| == |old(prs.items)| - (if err.None? && found then 1 else 0)
      ensures old(api.log) <= api.log
      ensures old(Tracks(api.log, book, false)) ==> Goes(err, api.log, book, false, Sure(rng))
    {
      hide DeletedBy, InTouch, Once, Ledger.Now, Fails;
      ghost var i, a, live, dead, log0 := initializing.items, available.items, Live(), stale.Members(), api.log;
      ghost var tracked := Tracks(api.log, book, false);
      err, found, gone := PopAndDelete(prs, api, rng, book);
      if tracked && gone != null {
        LessTracks(i, a, live, dead, gone, log0, api.log, book);
      } else if tracked && err.Some? && rng.Reliable() {
        var pr :| pr in old(prs.items) && Undeleted(pr, log0, api.log);
        DeleteCannotFail(pool, live, dead, pr, log0, api.log, book);
      }
    }

    /** Removes one that is initializing, or else an available one, if there is any. */
    method RemoveLive(api: Client, rng: Rng, ghost book: Ledger) returns (err: Option<Failure>, ghost gone: PoolReplica?)
      requires initializing != available && initializing != stale && available != stale
      requires Once(multiset(initializing.items) + multiset(available.items))
      modifies initializing, available, rng, book`deleted, api`calls, api`log
      ensures multiset(initializing.items) + multiset(available.items) + Only(gone)
           == multiset(old(initializing.items)) + multiset(old(available.items))
      ensures book.deleted == old(book.deleted) + Only(gone)
      ensures gone != null <==> err.None? && old(Actual()) > 0
      ensures old(api.log) <= api.log
      ensures old(Tracks(api.log, book, false)) ==> Goes(err, api.log, book, false, Sure(rng))
      ensures if |old(initializing.items)| != 0 then available.items == old(available.items) else |initializing.items| == 0
      ensures err.Some? ==> |available.items| == |old(available.items)|
    {
      hide Tracks, Once, Ledger.Now;
      var found;
      err, found, gone := TakeFrom(initializing, api, rng, book);
      if err.None? && !found {
        err, found, gone := TakeFrom(available, api, rng, book);
      }
    }

    lemma FewerListed(i: seq<PoolReplica>, a: seq<PoolReplica>, s: seq<PoolReplica>, gone: PoolReplica?)
      requires Once(multiset(i) + multiset(a) + multiset(s)) && stale.items == s
      requires multiset(initializing.items) + multiset(available.items) + Only(gone) == multiset(i) + multiset(a)
      ensures Once(Bag()) && forall pr | pr in Bag() :: pr in multiset(i) + multiset(a) + multiset(s)
      ensures Bag() + Only(gone) == multiset(i) + multiset(a) + multiset(s)
    {
      OnceLess(Bag(), Only(gone), multiset(i) + multiset(a) + multiset(s));
    }

    /** Without one of them the live ones are the others. */
    lemma LessLive(i: seq<PoolReplica>, a: seq<PoolReplica>, gone: PoolReplica)
      requires Once(multiset(i) + multiset(a))
      requires multiset(initializing.items) + multiset(available.items) + multiset{gone} == multiset(i) + multiset(a)
      ensures gone in (set pr | pr in i) + (set pr | pr in a)
      ensures Live() == (set pr | pr in i) + (set pr | pr in a) - {gone}
    {
      var m, now := multiset(i) + multiset(a), multiset(initializing.items) + multiset(available.items);
      assert gone in m && m[gone] == 1 && now[gone] == 0;
      forall pr ensures pr in Live() <==> pr in m && pr != gone {
        assert m[pr] == now[pr] + multiset{gone}[pr];
        assert pr in Live() <==> pr in now;
      }
    }

    /** Creates or removes one replica. */
    method Resize(api: Client, rng: Rng?, id: string, ghost book: Ledger)
      returns (err: Option<Failure>, ghost gained: PoolReplica?)
      requires Valid() && Actual() != Requested(pool)
      modifies this`conds, initializing, available, stale, rng, book, api`calls, api`log
      ensures Valid() && Bag() + book.deleted == old(Bag() + book.deleted) + Only(gained)
      ensures gained != null ==> fresh(gained)
      ensures gained != null <==> err.None? && old(Actual()) < Requested(pool)
      ensures err.Some? ==> Actual() == old(Actual())
      ensures err.None? && (gained == null || !gained.Stale()) ==> Actual() == Toward(old(Actual()), Requested(pool))
      ensures SameAt(conds, old(conds), PoolAvailable)
      ensures Reports(conds, PoolSettlement) ==> Reports(old(conds), PoolSettlement)
      ensures old(available.items) <= available.items || (|old(initializing.items)| == 0 && |initializing.items| == 0)
      ensures |old(available.items)| != 0 && Requested(pool) >= 1 ==> |available.items| != 0
      ensures |old(available.items)| != 0 ==>
        (|available.items| == 0 <==>
           err.None? && Requested(pool) <= 0 && |old(available.items)| == 1 && |old(initializing.items)| == 0)
      ensures old(Tracks(api.log, book, true)) && book.spare == ReplicaKey(pool, id) ==>
        Steps(err, api.log, book, old(Actual()), gained, Sure(rng))
    {
      hide Ledger.Now, Counted, Tracks;
      gained, err := null, None;
      hide Once, R.Stale, R.Available, FoundNothing, JustCreated, InTouch;
      if Actual() < Requested(pool) {
        err, gained := ScaleUp(api, id, book);
      } else {
        ghost var log0 := api.log;
        NoSpare(log0, book);
        CountedFirst(log0, book);
        err := ScaleDown(api, rng, book);
        StillUndisturbed(log0, api.log, book);
      }
    }

    lemma NoSpare(log: seq<Exchange>, book: Ledger)
      ensures Tracks(log, book, true) ==> Tracks(log, book, false)
    {
      hide InStep, Ledger.Now, AtFirst;
    }

    /** One step toward the request; reports settlement when there is none to make
        and nothing is initializing. */
    method Scale(api: Client, rng: Rng?, id: string, ghost book: Ledger)
      returns (err: Option<Failure>, ghost gained: PoolReplica?)
      requires Valid()
      modifies this`conds, initializing, available, stale, rng, book, api`calls, api`log
      ensures Valid() && Bag() + book.deleted == old(Bag() + book.deleted) + Only(gained)
      ensures gained != null ==> fresh(gained)
      ensures gained != null <==> err.None? && old(Actual()) < Requested(pool)
      ensures err.Some? ==> Actual() == old(Actual())
      ensures err.None? && (gained == null || !gained.Stale()) ==> Actual() == Toward(old(Actual()), Requested(pool))
      ensures SameAt(conds, old(conds), PoolAvailable)
      ensures old(Actual()) == Requested(pool) && |old(initializing.items)| == 0 ==> conds == old(conds)[PoolSettlement := SETTLED]
      ensures Reports(conds, PoolSettlement) && !Reports(old(conds), PoolSettlement) ==>
        |initializing.items| == 0 && |available.items| == Requested(pool)
      ensures old(available.items) <= available.items || (|old(initializing.items)| == 0 && |initializing.items| == 0)
      ensures |old(available.items)| != 0 && Requested(pool) >= 1 ==> |available.items| != 0
      ensures |old(available.items)| != 0 ==>
        (|available.items| == 0 <==>
           err.None? && Requested(pool) <= 0 && |old(available.items)| == 1 && |old(initializing.items)| == 0)
      ensures old(Tracks(api.log, book, true)) && book.spare == ReplicaKey(pool, id) ==>
        Steps(err, api.log, book, old(Actual()), gained, Sure(rng))
    {
      hide InTouch, Once, R.Stale, R.Available, Ledger.Now, Counted;
      NoSpare(api.log, book);
      CountedFirst(api.log, book);
      var request := Requested(pool);
      var actual := |available.items| + |initializing.items|;
      if actual != request {
        err, gained := Resize(api, rng, id, book);
        return;
      }
      gained, err := null, None;
      if |initializing.items| == 0 {
        conds := conds[PoolSettlement := SETTLED];
      }
    }

    // ---------------------------------------------------------------- stale ones

    /** Takes out and deletes one stale replica, reporting a failed init job. */
    method PersistStaleOne(api: Client, rng: Rng, ghost book: Ledger)
      returns (err: Option<Failure>, found: bool, pr: PoolReplica?)
      modifies this`conds, stale, rng, book`deleted, api`calls, api`log
      ensures multiset(stale.items) + book.deleted == old(multiset(stale.items) + book.deleted)
      ensures err.None? && !found ==> stale.items == []
      ensures old(book.deleted) <= book.deleted
      ensures err.None? && found ==> pr != null
      ensures |stale.items| == |old(stale.items)| - (if err.None? && found then 1 else 0)
      ensures err.None? && found ==> multiset(stale.items) + multiset{pr} == multiset(old(stale.items))
      ensures conds == if found && pr != null && pr.job.outcome.Failed?
                       then old(conds)[PoolSettlement := INIT_JOB_FAILED] else old(conds)
      ensures err.None? && found ==> DeletedBy(pr, old(api.log), api.log)
      ensures err.Some? && rng.Reliable() ==>
        pr != null && pr in old(stale.items) && Undeleted(pr, old(api.log), api.log)
      ensures err.None? && !found ==> stale.items == old(stale.items) && api.log == old(api.log)
      ensures old(api.log) <= api.log
    {
      hide ReplicaAfter, R.Deleting, DeletedBy, R.Stale, R.Available;
      pr, found, err := stale.Pop(rng);
      if err.Some? || !found {
        return;
      }
      if pr.job.outcome.Failed? {
        conds := conds[PoolSettlement := INIT_JOB_FAILED];
      }
      err := pr.Delete(api, book);
      if err.Some? {
        stale.Append(pr);
      }
    }

    /** The same, and what is said of the cluster stays true. */
    method BuryOne(api: Client, rng: Rng, ghost book: Ledger)
      returns (err: Option<Failure>, found: bool, pr: PoolReplica?)
      requires stale != initializing && stale != available
      modifies this`conds, stale, rng, book`deleted, api`calls, api`log
      ensures multiset(stale.items) + book.deleted == old(multiset(stale.items) + book.deleted)
      ensures err.None? && !found ==> stale.items == []
      ensures old(book.deleted) <= book.deleted
      ensures err.None? && found ==> pr != null
      ensures |stale.items| == |old(stale.items)| - (if err.None? && found then 1 else 0)
      ensures err.None? && found ==> multiset(stale.items) + multiset{pr} == multiset(old(stale.items))
      ensures conds == if found && pr != null && pr.job.outcome.Failed?
                       then old(conds)[PoolSettlement := INIT_JOB_FAILED] else old(conds)
      ensures old(api.log) <= api.log
      ensures old(Tracks(api.log, book, false)) ==> Goes(err, api.log, book, false, Sure(rng))
    {
      hide InTouch, DeletedBy, Ledger.Now, Fails;
      ghost var s, live, dead, log0 := stale.items, Live(), stale.Members(), api.log;
      ghost var tracked := Tracks(api.log, book, false);
      err, found, pr := PersistStaleOne(api, rng, book);
      if tracked && err.None? && found {
        StillMembers(stale.items, s, pr);
        BuryInTouch(pool, live, dead, stale.Members(), pr, log0, api.log, book);
      } else if tracked && err.Some? && rng.Reliable() {
        DeleteCannotFail(pool, live, dead, pr, log0, api.log, book);
      }
    }

    lemma StillMembers(now: seq<PoolReplica>, was: seq<PoolReplica>, pr: PoolReplica)
      requires multiset(now) + multiset{pr} == multiset(was)
      ensures pr in was && (set p | p in now) <= (set p | p in was)
    {
      assert forall p :: p in was <==> p in multiset(was);
      assert forall p :: p in now <==> p in multiset(now);
    }

    /** Deletes every stale replica; an init job that failed is reported. */
    method PersistStale(api: Client, rng: Rng?, ghost book: Ledger) returns (err: Option<Failure>)
      requires stale != initializing && stale != available
      modifies this`conds, stale, rng, book`deleted, api`calls, api`log
      ensures multiset(stale.items) + book.deleted == old(multiset(stale.items) + book.deleted)
      ensures old(book.deleted) <= book.deleted
      ensures err.None? ==> stale.items == []
      ensures SameAt(conds, old(conds), PoolAvailable)
      ensures Reports(conds, PoolSettlement) ==> Reports(old(conds), PoolSettlement)
      ensures err.None? && (exists pr :: pr in old(stale.items) && pr.job.outcome.Failed?) ==>
        conds == old(conds)[PoolSettlement := INIT_JOB_FAILED]
      ensures err.None? && (forall pr | pr in old(stale.items) :: !pr.job.outcome.Failed?) ==> conds == old(conds)
      ensures old(api.log) <= api.log
      ensures old(Tracks(api.log, book, false)) ==> Goes(err, api.log, book, false, Sure(rng))
    {
      hide Ledger.Now, Tracks;
      if rng == null {
        return Some(NoRandomness);
      }
      err := None;
      var found := true;
      assert FailuresReported(stale.items, stale.items, conds, conds);
      hide FailuresReported, SameAt, Reports, DeletedBy;
      while found && err.None?
        invariant multiset(stale.items) + book.deleted == old(multiset(stale.items) + book.deleted)
        invariant old(book.deleted) <= book.deleted
        invariant err.None? && !found ==> stale.items == []
        invariant SameAt(conds, old(conds), PoolAvailable)
        invariant Reports(conds, PoolSettlement) ==> Reports(old(conds), PoolSettlement)
        invariant err.None? ==> FailuresReported(old(stale.items), stale.items, old(conds), conds)
        invariant old(api.log) <= api.log
        invariant old(Tracks(api.log, book, false)) ==> Goes(err, api.log, book, false, Sure(rng))
        decreases |stale.items|, found, err.None?
      {
        ghost var was, mids := stale.items, conds;
        var pr;
        err, found, pr := BuryOne(api, rng, book);
        if err.None? && found {
          OneMoreReported(old(stale.items), was, stale.items, pr, old(conds), mids, conds);
        }
      }
      if err.None? {
        AllReported(old(stale.items), old(conds), conds);
      }
    }

    // --------------------------------------------------------------- persisting

    /** The last phase, seen from the whole pool. */
    method DeleteStale(api: Client, rng: Rng?, ghost book: Ledger) returns (err: Option<Failure>)
      requires Valid()
      modifies this`conds, stale, rng, book`deleted, api`calls, api`log
      ensures Valid() && Bag() + book.deleted == old(Bag() + book.deleted)
      ensures err.None? ==> stale.items == []
      ensures SameAt(conds, old(conds), PoolAvailable)
      ensures Reports(conds, PoolSettlement) ==> Reports(old(conds), PoolSettlement)
      ensures old(api.log) <= api.log
      ensures old(Tracks(api.log, book, false)) ==> Goes(err, api.log, book, false, Sure(rng))
    {
      hide R.Stale, R.Available, SameAt, Reports, Once, Tracks, Goes;
      ghost var mid, deleted, st := Bag(), book.deleted, multiset(stale.items);
      err := PersistStale(api, rng, book);
      Regroup(multiset(stale.items), book.deleted, st, deleted, multiset(initializing.items), multiset(available.items));
      assert Bag() + book.deleted == mid + deleted;
      Balanced(Bag(), book.deleted, mid, deleted);
    }

    /** The last two phases: one scaling step, then the stale replicas; `scaled` if the
        step was made, whatever came of the stale ones. */
    method PersistScaleAndStale(api: Client, rng: Rng?, id: string, ghost book: Ledger)
      returns (err: Option<Failure>, ghost gained: PoolReplica?, ghost scaled: bool)
      requires Valid()
      modifies this`conds, initializing, available, stale, rng, book, api`calls, api`log
      ensures Valid() && Bag() + book.deleted == old(Bag() + book.deleted) + Only(gained)
      ensures gained != null ==> fresh(gained)
      ensures err.None? ==> stale.items == []
      ensures SameAt(conds, old(conds), PoolAvailable)
      ensures Reports(conds, PoolSettlement) && !Reports(old(conds), PoolSettlement) ==>
        |initializing.items| == 0 && |available.items| == Requested(pool)
      ensures |old(available.items)| != 0 && Requested(pool) >= 1 ==> |available.items| != 0
      ensures (err.None? ==> scaled) && (!scaled ==> gained == null && Actual() == old(Actual()))
      ensures scaled && (gained == null || !gained.Stale()) ==> Actual() == Toward(old(Actual()), Requested(pool))
      ensures |old(available.items)| != 0 ==>
        (|available.items| == 0 <==>
           scaled && Requested(pool) <= 0 && |old(available.items)| == 1 && |old(initializing.items)| == 0)
      ensures old(Tracks(api.log, book, true)) && book.spare == ReplicaKey(pool, id) ==>
        Steps(err, api.log, book, old(Actual()), gained, Sure(rng))
    {
      hide R.Stale, R.Available, Toward, Only, Once, Bag, SameAt, Reports, Tracks, Ledger.Now, Counted;
      err, gained := Scale(api, rng, id, book);
      scaled := err.None?;
      if err.None? {
        ghost var mids, log1 := conds, api.log;
        TracksBase(log1, book);
        err := DeleteStale(api, rng, book);
        SameThrough(conds, mids, old(conds), PoolAvailable);
        StillUndisturbed(log1, api.log, book);
      }
    }

    lemma StillUndisturbed(before: seq<Exchange>, now: seq<Exchange>, book: Ledger)
      requires before <= now
      ensures book.base <= |before| && book.Now(now).Some? ==> book.Now(before).Some?
    {
      hide Served;
      if book.base <= |before| {
        book.NowThen(before, now);
      }
    }

    lemma TracksBase(log: seq<Exchange>, book: Ledger)
      ensures Tracks(log, book, false) ==> book.base <= |log|
    {
      hide InStep, Ledger.Now, AtFirst;
    }

    /** All but the first phase. */
    method PersistRest(api: Client, rng: Rng?, id: string, ghost book: Ledger)
      returns (err: Option<Failure>, ghost gained: PoolReplica?, ghost scaled: bool)
      requires Valid()
      modifies this`conds, initializing, available, stale, available.Members(), rng, book, api`calls, api`log
      ensures Valid() && Bag() + book.deleted == old(Bag() + book.deleted) + Only(gained)
      ensures gained != null ==> fresh(gained)
      ensures err.None? ==> stale.items == []
      ensures (err.None? ==> scaled) && (!scaled ==> gained == null && Actual() == old(Actual()))
      ensures scaled && (gained == null || !gained.Stale()) ==> Actual() == Toward(old(Actual()), Requested(pool))
      ensures Reports(conds, PoolSettlement) && !Reports(old(conds), PoolSettlement) ==>
        |initializing.items| == 0 && |available.items| == Requested(pool)
      ensures Reports(conds, PoolAvailable) && !Reports(old(conds), PoolAvailable) && Requested(pool) >= 1 ==>
        |available.items| != 0
      ensures scaled && |old(available.items)| != 0 ==> Reports(conds, PoolAvailable)
      ensures |old(available.items)| != 0 ==>
        (|available.items| == 0 <==>
           scaled && Requested(pool) <= 0 && |old(available.items)| == 1 && |old(initializing.items)| == 0)
      ensures |old(available.items)| == 0 ==> (Reports(conds, PoolAvailable) <==> Reports(old(conds), PoolAvailable))
      ensures old(Tracks(api.log, book, true)) && book.spare == ReplicaKey(pool, id) ==>
        Steps(err, api.log, book, old(Actual()), gained, Sure(rng))
    {
      hide Ledger.Now;
      gained, scaled := null, false;
      hide R.Stale, R.Available, Toward, Once, FailedAt, AllAvailable, Tracks, Stepped;
      ghost var done;
      err, done := PersistAvailable(api, book);
      if err.None? {
        err, gained, scaled := PersistScaleAndStale(api, rng, id, book);
      }
    }

    /** A whole reconcile of the lists.  Whatever fails on the way, nothing is lost
        and nothing is listed twice: what was listed, plus the replica created, is
        what is listed now plus what was deleted.  Without an error nothing stale
        is left and the number of replicas has moved one step toward the request.
        Settlement and availability are only reported when they hold; a pool that is
        reported available is left without an available replica exactly if none was
        requested, it had only one replica and the scaling step was made. */
    method Persist(api: Client, rng: Rng?, id: string, ghost book: Ledger)
      returns (err: Option<Failure>, ghost gained: PoolReplica?, ghost scaled: bool)
      requires Valid()
      modifies this`conds, initializing, available, stale, initializing.items, initializing.Members() + available.Members(),
        rng, book, api`calls, api`log
      ensures Valid() && Bag() + book.deleted == old(Bag() + book.deleted) + Only(gained)
      ensures gained != null ==> fresh(gained)
      ensures err.None? ==> stale.items == []
      ensures (err.None? ==> scaled) && (!scaled ==> gained == null && Actual() == old(Actual()))
      ensures scaled && (gained == null || !gained.Stale()) ==> Actual() == Toward(old(Actual()), Requested(pool))
      ensures Reports(conds, PoolSettlement) && !Reports(old(conds), PoolSettlement) ==>
        |initializing.items| == 0 && |available.items| == Requested(pool)
      ensures Reports(conds, PoolAvailable) && !Reports(old(conds), PoolAvailable) && Requested(pool) >= 1 ==>
        |available.items| != 0
      ensures Reports(conds, PoolAvailable) && !Reports(old(conds), PoolAvailable) ==>
        (|available.items| == 0 <==> scaled && Requested(pool) <= 0 && old(Actual()) == 1)
      ensures old(Tracks(api.log, book, true)) && book.spare == ReplicaKey(pool, id) ==>
        Steps(err, api.log, book, old(Actual()), gained, Sure(rng))
    {
      hide Ledger.Now, InTouch;
      gained, scaled := null, false;
      hide R.Stale, R.Available, Toward, Once, FailedAt, AllAvailable, Reports, Tracks, Stepped, Steps, Goes, Sure;
      ghost var done;
      ghost var was := Actual();
      err, done := PersistInitializing(api, book);
      WentWrong(err, api.log, book, was, Sure(rng));
      if err.None? {
        Arrived(old(initializing.items), old(available.items), initializing.items, available.items);
        hide Valid;
        err, gained, scaled := PersistRest(api, rng, id, book);
      }
    }
  }

  /** The first call of a load: either it is refused, or the listed replicas come next. */
  lemma LoadStarts(pool: Pool, before: seq<Exchange>, x: Exchange)
    requires x.req == ListClaims(pool.key.namespace, pool.spec.selector) && Kube.Fits(x.req, x.resp)
    ensures var q := ScanAfter(Checkouts.StartScan(pool), before, before + [x]);
      && q.Some?
      && (x.resp.Refused? ==> q.value.pc == Checkouts.ScanFailed)
      && (x.resp.GotKeys? ==>
            && q.value.pool == pool && Stands(pool, q.value, x.resp.keys, 0)
            && q.value.initializing == [] && q.value.available == [] && q.value.stale == [])
  {
    hide Checkouts.Continue, Kube.Fits, R.ResumeReplica;
    assert ScanAfter(Checkouts.StartScan(pool), before, before) == Some(Checkouts.StartScan(pool));
    ScanStep(Checkouts.StartScan(pool), before, before, x, Checkouts.StartScan(pool));
  }

  lemma LoadSorts(pool: Pool, before: seq<Exchange>, now: seq<Exchange>)
    requires ScanAfter(Checkouts.StartScan(pool), before, now).Some?
    ensures var q := ScanAfter(Checkouts.StartScan(pool), before, now).value;
      Checkouts.WellSorted(q.initializing, q.available, q.stale)
  {
    hide Checkouts.ReplayScan, Checkouts.WellSorted;
    Checkouts.ScanSorts(pool, now[|before|..]);
  }

  /** Each of these is available, or each is not. */
  ghost predicate AllAvailable(prs: seq<PoolReplica>, nowAvailable: bool)
    reads prs
  {
    forall pr | pr in prs :: pr.Available() <==> nowAvailable
  }

  /** What the ledger recorded since it stood at `base`. */
  ghost predicate Since(base: seq<PoolReplica>, now: seq<PoolReplica>, what: multiset<PoolReplica>) {
    base <= now && multiset(now[|base|..]) == what
  }

  lemma SinceThen(base: seq<PoolReplica>, now: seq<PoolReplica>, what: multiset<PoolReplica>, pr: PoolReplica)
    requires Since(base, now, what)
    ensures Since(base, now + [pr], what + multiset{pr})
  {
    assert (now + [pr])[|base|..] == now[|base|..] + [pr];
  }

  lemma AvailableToo(prs: seq<PoolReplica>, pr: PoolReplica, nowAvailable: bool)
    requires AllAvailable(prs, nowAvailable) && (pr.Available() <==> nowAvailable)
    ensures AllAvailable(prs + [pr], nowAvailable)
  {
  }

  /** Persisting stopped at the i-th replica: those before it were persisted once
      and kept, those moved were persisted once, it was tried, the rest was not. */
  ghost predicate FailedAt(s: seq<PoolReplica>, i: nat, moved: seq<PoolReplica>, base: seq<PoolReplica>, book: Ledger)
    requires i < |s|
    reads s, moved, book
  {
    && AllAvailable(s[..i], false) && AllAvailable(moved, true)
    && Since(base, book.persisted, multiset(s[..i]) + multiset(moved) + multiset{s[i]})
  }

  lemma InAll(s: seq<PoolReplica>, rest: seq<PoolReplica>, all: seq<PoolReplica>, i: nat)
    requires multiset(s) + multiset(rest) == multiset(all) && i < |s|
    ensures s[i] in all
  {
    assert s[i] in multiset(s) + multiset(rest);
  }

  lemma Arrived<T>(from: seq<T>, to: seq<T>, left: seq<T>, now: seq<T>)
    requires to <= now && multiset(left) + multiset(now[|to|..]) == multiset(from)
    ensures forall x | x in now :: x in from || x in to
  {
    forall x | x in now ensures x in from || x in to {
      assert now == to + now[|to|..];
      if x in now[|to|..] {
        assert x in multiset(left) + multiset(now[|to|..]);
      }
    }
  }

  /** A balance between one list and the ledger is one with the other lists too. */
  lemma Regroup<T>(x: multiset<T>, d: multiset<T>, x': multiset<T>, d': multiset<T>, r: multiset<T>, s: multiset<T>)
    requires x + d == x' + d'
    ensures x + r + s + d == x' + r + s + d'
    ensures r + x + s + d == r + x' + s + d'
    ensures r + s + x + d == r + s + x' + d'
  {
    forall t ensures x[t] + d[t] == x'[t] + d'[t] {
      assert (x + d)[t] == (x' + d')[t];
    }
  }

  /** What the ledger gained is what the lists lost. */
  lemma Balanced(now: multiset<PoolReplica>, deleted: multiset<PoolReplica>,
                 before: multiset<PoolReplica>, was: multiset<PoolReplica>)
    requires Once(before) && now + deleted == before + was && was <= deleted
    ensures Once(now) && forall pr | pr in now :: pr in before
  {
    assert now + (deleted - was) == before by {
      forall pr ensures (now + (deleted - was))[pr] == before[pr] {
        assert (now + deleted)[pr] == (before + was)[pr];
      }
    }
    OnceLess(now, deleted - was, before);
  }

  /** What is left of distinct replicas is distinct. */
  lemma OnceLess(m: multiset<PoolReplica>, lost: multiset<PoolReplica>, all: multiset<PoolReplica>)
    requires Once(all) && m + lost == all
    ensures Once(m) && forall pr | pr in m :: pr in all
  {
    forall pr | pr in m ensures pr in all && m[pr] == 1 {
      assert all[pr] == m[pr] + lost[pr];
    }
  }

  predicate SameAt(a: Conds, b: Conds, kind: PoolCondition) {
    if kind in a then kind in b && a[kind] == b[kind] else kind !in b
  }

  lemma SameThrough(a: Conds, b: Conds, c: Conds, kind: PoolCondition)
    requires SameAt(a, b, kind) && SameAt(b, c, kind)
    ensures SameAt(a, c, kind)
  {
  }

  /** One step from the actual number of replicas to the requested one. */
  function Toward(actual: nat, request: int): nat {
    if actual < request then actual + 1
    else if actual > request && actual > 0 then actual - 1
    else actual
  }

  /** From one cluster to the next the pool has gained or lost one replica, toward the
      request, if it had another number. */
  ghost predicate StepsToward(s: Cluster, pool: Pool, s': Cluster) {
    Sound(s') && |Counted(s', pool)| == Toward(|Counted(s, pool)|, Requested(pool))
  }

  /** The replica, if there is one. */
  ghost function Only(pr: PoolReplica?): multiset<PoolReplica> {
    if pr == null then multiset{} else multiset{pr}
  }

  /** Of the stale replicas at first, those no longer listed were dealt with, and a
      failed init job among them is reported. */
  ghost predicate FailuresReported(all: seq<PoolReplica>, left: seq<PoolReplica>, before: Conds, now: Conds)
    reads all
  {
    && multiset(left) <= multiset(all)
    && now == if exists pr :: pr in multiset(all) - multiset(left) && pr.job.outcome.Failed?
              then before[PoolSettlement := INIT_JOB_FAILED] else before
  }

  lemma AllReported(all: seq<PoolReplica>, before: Conds, now: Conds)
    requires FailuresReported(all, [], before, now)
    ensures (exists pr :: pr in all && pr.job.outcome.Failed?) ==> now == before[PoolSettlement := INIT_JOB_FAILED]
    ensures (forall pr | pr in all :: !pr.job.outcome.Failed?) ==> now == before
  {
    assert multiset(all) - multiset([]) == multiset(all);
    assert forall pr :: pr in all <==> pr in multiset(all);
  }

  lemma OneMoreReported(all: seq<PoolReplica>, was: seq<PoolReplica>, left: seq<PoolReplica>, pr: PoolReplica,
                        before: Conds, mids: Conds, now: Conds)
    requires FailuresReported(all, was, before, mids) && multiset(left) + multiset{pr} == multiset(was)
    requires now == if pr.job.outcome.Failed? then mids[PoolSettlement := INIT_JOB_FAILED] else mids
    ensures FailuresReported(all, left, before, now)
  {
    assert multiset(all) - multiset(left) == multiset(all) - multiset(was) + multiset{pr};
    var c := before[PoolSettlement := INIT_JOB_FAILED];
    assert c[PoolSettlement := INIT_JOB_FAILED] == c;
  }

  /** These calls did not succeed in deleting it. */
  ghost predicate Undeleted(pr: PoolReplica, before: seq<Exchange>, now: seq<Exchange>)
    reads pr
  {
    Fails(R.Deleting(pr.At(R.Ready)), before, now) && before <= now && DropRefused(pr.State(), now[|before|..])
  }

  /** The source of random numbers, if there is one, does not fail. */
  ghost predicate Sure(rng: Rng?) {
    rng != null && rng.Reliable()
  }

  /** Takes a random replica out of the list and deletes it; puts it back at the
      end if that fails. */
  method PopAndDelete(prs: PoolReplicas, api: Client, rng: Rng, ghost book: Ledger)
    returns (err: Option<Failure>, found: bool, ghost gone: PoolReplica?)
    modifies prs, rng, book`deleted, api`calls, api`log
    ensures multiset(prs.items) + Only(gone) == multiset(old(prs.items)) && book.deleted == old(book.deleted) + Only(gone)
    ensures err.None? && !found ==> prs.items == [] && old(prs.items) == []
    ensures |prs.items| == |old(prs.items)| - (if err.None? && found then 1 else 0)
    ensures gone != null <==> err.None? && found
    ensures err.None? ==> if gone != null then DeletedBy(gone, old(api.log), api.log) else api.log == old(api.log)
    ensures err.Some? && rng.Reliable() ==>
      exists pr :: pr in old(prs.items) && Undeleted(pr, old(api.log), api.log)
    ensures old(api.log) <= api.log
  {
    hide ReplicaAfter, R.Deleting, DeletedBy, R.Stale, R.Available;
    gone := null;
    var pr;
    pr, found, err := prs.Pop(rng);
    if err.Some? || !found {
      return;
    }
    err := pr.Delete(api, book);
    if err.Some? {
      prs.Append(pr);
      assert Undeleted(pr, old(api.log), api.log);
    } else {
      gone := pr;
    }
  }

  /** Deletes replicas until the list is empty or a deletion fails. */
  method Drain(prs: PoolReplicas, api: Client, rng: Rng, ghost book: Ledger) returns (err: Option<Failure>)
    modifies prs, rng, book`deleted, api`calls, api`log
    ensures multiset(prs.items) + book.deleted == old(multiset(prs.items) + book.deleted)
    ensures old(book.deleted) <= book.deleted
    ensures err.None? ==> prs.items == []
  {
    hide ReplicaAfter;
    err := None;
    var found := true;
    while found && err.None?
      invariant multiset(prs.items) + book.deleted == old(multiset(prs.items) + book.deleted)
      invariant old(book.deleted) <= book.deleted
      invariant err.None? && !found ==> prs.items == []
      decreases |prs.items|, found, err.None?
    {
      ghost var gone;
      err, found, gone := PopAndDelete(prs, api, rng, book);
    }
  }
}
