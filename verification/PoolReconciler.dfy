/** One reconcile of a pool: load, finalize or configure and persist, and on every
    exit the status. */
module PoolReconciler {
  import opened Kube
  import Checkouts
  import opened Conditions
  import opened Client
  import opened PoolReplicas
  import opened PoolStates
  import opened Tracking

  datatype PoolStatus = PoolStatus(
    observedGeneration: int, replicas: nat, availableReplicas: nat, conditions: seq<Typed<PoolCondition>>)

  const KINDS := [PoolAvailable, PoolSettlement]

  /** The pool resource that is reconciled. */
  class PoolObject {
    const pool: Pool
    const generation: int
    const deleting: bool
    var hasFinalizer: bool
    var status: PoolStatus

    constructor (pool: Pool, generation: int, deleting: bool, hasFinalizer: bool, status: PoolStatus)
      ensures this.pool == pool && this.generation == generation && this.deleting == deleting
      ensures this.hasFinalizer == hasFinalizer && this.status == status
    {
      this.pool := pool;
      this.generation := generation;
      this.deleting := deleting;
      this.hasFinalizer := hasFinalizer;
      this.status := status;
    }
  }

  /** Status from the lists and the conditions of this reconcile. */
  method ConfigurePool(ps: PoolState, o: PoolObject, now: PoolCondition -> Time)
    modifies o`status
    ensures o.status.observedGeneration == o.generation
    ensures o.status.replicas == |ps.available.items| + |ps.initializing.items| + |ps.stale.items|
    ensures o.status.availableReplicas == |ps.available.items|
    ensures o.status.conditions == Refreshed(KINDS, old(o.status.conditions), ps.conds, now)
  {
    o.status := o.status.(
      observedGeneration := o.generation,
      replicas := |ps.available.items| + |ps.initializing.items| + |ps.stale.items|,
      availableReplicas := |ps.available.items|);
    var conds := [];
    var i := 0;
    while i < |KINDS|
      invariant i <= |KINDS| && conds == Refreshed(KINDS, old(o.status.conditions), ps.conds, now)[..i]
    {
      var prev := Lookup(o.status.conditions, KINDS[i]);
      var next := Reported(ps.conds, KINDS[i]);
      conds := conds + [Typed(KINDS[i], UpdateCondition(prev, next, now(KINDS[i])))];
      i := i + 1;
    }
    o.status := o.status.(conditions := conds);
  }

  /** A status says True of a condition exactly if this reconcile reported it. */
  lemma StatusTells(prev: seq<Typed<PoolCondition>>, conds: Conds, now: PoolCondition -> Time, kind: PoolCondition)
    ensures Lookup(Refreshed(KINDS, prev, conds, now), kind).status == TRUE <==> Reports(conds, kind)
  {
    assert kind == KINDS[0] || kind == KINDS[1];
    LookupRefreshed(KINDS, prev, conds, now, kind);
  }

  /** Deletes everything of a pool that is being deleted, then lets it go; marks any
      other pool as ours to finalize.  The pool is written exactly if its mark has
      changed, and loses it only when all is deleted. */
  method Finalize(api: Client, rng: Rng?, o: PoolObject, ps: PoolState, ghost book: Ledger)
    returns (finalized: bool, err: Option<Failure>)
    requires ps.Valid()
    modifies o`hasFinalizer, ps.initializing, ps.available, ps.stale, rng, book`deleted,
      api`calls, api`log, api`objectWrites
    ensures ps.Valid() && ps.Bag() + book.deleted == old(ps.Bag() + book.deleted)
    ensures finalized ==> o.deleting && ps.Bag() == multiset{}
    ensures o.deleting && err.None? ==> finalized
    ensures !o.deleting ==>
      && ps.initializing.items == old(ps.initializing.items)
      && ps.available.items == old(ps.available.items) && ps.stale.items == old(ps.stale.items)
    ensures o.deleting && old(o.hasFinalizer) && !o.hasFinalizer ==> ps.Bag() == multiset{}
    ensures if o.deleting && !finalized then o.hasFinalizer == old(o.hasFinalizer) else o.hasFinalizer == !o.deleting
    ensures api.objectWrites == old(api.objectWrites) + (if o.hasFinalizer == old(o.hasFinalizer) then 0 else 1)
    ensures !o.deleting && api.Willing() ==> err.None?
    ensures !o.deleting ==> !finalized && (old(ps.Tracks(api.log, book, true)) ==> ps.Tracks(api.log, book, true))
  {
    hide PoolState.Tracks;
    finalized, err := false, None;
    if !o.deleting {
      if !o.hasFinalizer {
        o.hasFinalizer := true;
        err := api.WriteObject();
      }
      return;
    }
    err := ps.Delete(api, rng, book);
    if err.Some? {
      return;
    }
    finalized := true;
    if o.hasFinalizer {
      o.hasFinalizer := false;
      err := api.WriteObject();
    }
  }

  /** The book was opened at this moment, for a replica with this id. */
  ghost predicate Opened(book: Ledger, log: seq<Exchange>, pool: Pool, id: string) {
    book.base == |log| && book.spare == ReplicaKey(pool, id) && Startable(pool, book)
  }

  /** Nobody but its caller has changed the cluster until this moment. */
  ghost predicate Reaches(book: Ledger, log: seq<Exchange>, pool: Pool, id: string) {
    book.spare == ReplicaKey(pool, id) && book.Now(log).Some?
  }

  /** Neither the cluster as it was loaded, nor the source of random numbers, nor a
      write of the pool itself gives cause for an error. */
  ghost predicate Favourable(book: Ledger, rng: Rng?, api: Client) {
    Referring(book.start) && Sure(rng) && api.Willing()
  }

  /** Everything but the status. */
  method ReconcileLists(api: Client, rng: Rng?, id: string, o: PoolObject, ps: PoolState, ghost book: Ledger)
    returns (requeue: bool, err: Option<Failure>)
    requires ps.Valid() && ps.Bag() == multiset{} && ps.conds == map[] && ps.pool == o.pool
    modifies o`hasFinalizer, ps, ps.initializing, ps.available, ps.stale, rng, book, api`calls, api`log, api`objectWrites
    ensures Reports(ps.conds, PoolSettlement) ==>
      |ps.initializing.items| == 0 && |ps.available.items| == Requested(o.pool)
    ensures Reports(ps.conds, PoolAvailable) && Requested(o.pool) >= 1 ==> |ps.available.items| != 0
    ensures err.None? ==> ps.stale.items == []
    ensures err.None? ==> o.hasFinalizer == !o.deleting
    ensures requeue ==> err.Some?
    ensures o.deleting && old(o.hasFinalizer) && !o.hasFinalizer ==> ps.Bag() == multiset{}
    ensures err.None? && !o.deleting && Opened(book, old(api.log), o.pool, id) && book.Now(api.log).Some? ==>
      StepsToward(book.start, o.pool, book.Now(api.log).value)
    ensures !o.deleting && Opened(book, old(api.log), o.pool, id) && Favourable(book, rng, api) && book.Now(api.log).Some? ==>
      err.None?
  {
    hide ScanAfter, ReplicaAfter, Toward, Only, Once, StepsToward, PoolState.Tracks, Startable, Ledger.Now;
    ghost var before := api.log;
    err := ps.Load(api);
    requeue := err.Some?;
    if err.Some? {
      if book.base == |before| && Referring(book.start) {
        LoadCannotFail(o.pool, before, api.log, ScanAfter(Checkouts.StartScan(o.pool), before, api.log).value, book);
      }
    } else {
      if Opened(book, before, o.pool, id) {
        ps.LoadTracks(before, api.log, ScanAfter(Checkouts.StartScan(o.pool), before, api.log).value, book);
      }
      err := FinalizeOrPersist(api, rng, id, o, ps, book);
    }
  }

  /** What follows loading. */
  method FinalizeOrPersist(api: Client, rng: Rng?, id: string, o: PoolObject, ps: PoolState, ghost book: Ledger)
    returns (err: Option<Failure>)
    requires ps.Valid() && ps.conds == map[] && ps.pool == o.pool
    modifies o`hasFinalizer, ps`conds, ps.initializing, ps.available, ps.stale, ps.initializing.items,
      ps.initializing.Members() + ps.available.Members(), rng, book, api`calls, api`log, api`objectWrites
    ensures Reports(ps.conds, PoolSettlement) ==>
      |ps.initializing.items| == 0 && |ps.available.items| == Requested(o.pool)
    ensures Reports(ps.conds, PoolAvailable) && Requested(o.pool) >= 1 ==> |ps.available.items| != 0
    ensures err.None? ==> ps.stale.items == []
    ensures err.None? ==> o.hasFinalizer == !o.deleting
    ensures o.deleting && old(o.hasFinalizer) && !o.hasFinalizer ==> ps.Bag() == multiset{}
    ensures err.None? && !o.deleting && old(ps.Tracks(api.log, book, true)) && Reaches(book, api.log, o.pool, id) ==>
      StepsToward(book.start, o.pool, book.Now(api.log).value)
    ensures !o.deleting && old(ps.Tracks(api.log, book, true)) && Reaches(book, api.log, o.pool, id) ==>
      Sure(rng) && api.Willing() ==> err.None?
  {
    hide Only, Once, PoolState.Tracks, StepsToward, PoolState.Valid, Reaches, Sure, Ledger.Now;
    var finalized;
    finalized, err := Finalize(api, rng, o, ps, book);
    if err.Some? || finalized {
      return;
    }
    err := ConfigureAndPersist(api, rng, id, ps, book);
  }

  /** The pool that stays. */
  method ConfigureAndPersist(api: Client, rng: Rng?, id: string, ps: PoolState, ghost book: Ledger)
    returns (err: Option<Failure>)
    requires ps.Valid() && ps.conds == map[]
    modifies ps`conds, ps.initializing, ps.available, ps.stale, ps.initializing.items,
      ps.initializing.Members() + ps.available.Members(), rng, book, api`calls, api`log
    ensures Reports(ps.conds, PoolSettlement) ==>
      |ps.initializing.items| == 0 && |ps.available.items| == Requested(ps.pool)
    ensures Reports(ps.conds, PoolAvailable) && Requested(ps.pool) >= 1 ==> |ps.available.items| != 0
    ensures err.None? ==> ps.stale.items == []
    ensures err.None? && old(ps.Tracks(api.log, book, true)) && Reaches(book, api.log, ps.pool, id) ==>
      StepsToward(book.start, ps.pool, book.Now(api.log).value)
    ensures old(ps.Tracks(api.log, book, true)) && Reaches(book, api.log, ps.pool, id) && Sure(rng) ==> err.None?
  {
    hide Toward, Only, Once, PoolState.Tracks, PoolState.Stepped, StepsToward, Sure, Ledger.Now;
    ps.Configure(api.log, book);
    ghost var was, tracked, gained, scaled := ps.Actual(), ps.Tracks(api.log, book, true), null, false;
    err, gained, scaled := ps.Persist(api, rng, id, book);
    if tracked && err.None? && book.spare == ReplicaKey(ps.pool, id) {
      ps.SteppedCounts(api.log, book, was, gained);
    }
  }

  /** One reconcile.  Unless the pool is being deleted the status is written once,
      on whatever exit, and it is true of the lists as the reconcile leaves them:
      settled only with nothing initializing and exactly the requested number
      available, available only with at least one available if any is requested. */
  method Reconcile(api: Client, rng: Rng?, id: string, o: PoolObject, now: PoolCondition -> Time, ghost book: Ledger)
    returns (requeue: bool, err: Option<Failure>, ps: PoolState)
    modifies o, rng, book, api
    ensures fresh(ps) && ps.pool == o.pool
    ensures api.statusWrites == old(api.statusWrites) + (if o.deleting then 0 else 1)
    ensures o.status.replicas == |ps.available.items| + |ps.initializing.items| + |ps.stale.items|
    ensures o.status.availableReplicas == |ps.available.items|
    ensures Lookup(o.status.conditions, PoolSettlement).status == TRUE ==>
      |ps.initializing.items| == 0 && |ps.available.items| == Requested(o.pool)
    ensures Lookup(o.status.conditions, PoolAvailable).status == TRUE && Requested(o.pool) >= 1 ==>
      |ps.available.items| != 0
    ensures err.None? ==> ps.stale.items == []
    ensures err.None? ==> o.hasFinalizer == !o.deleting
    ensures requeue ==> err.Some?
    ensures o.deleting && old(o.hasFinalizer) && !o.hasFinalizer ==> o.status.replicas == 0
    ensures err.None? && !o.deleting && Opened(book, old(api.log), o.pool, id) && book.Now(api.log).Some? ==>
      StepsToward(book.start, o.pool, book.Now(api.log).value)
    ensures !o.deleting && Opened(book, old(api.log), o.pool, id) && Favourable(book, rng, api) && book.Now(api.log).Some? ==>
      err.None?
  {
    hide StepsToward, Opened, Refreshed, PoolState.Bag, Lookup, Reports, Client.Willing, Sure, Ledger.Now;
    ps := new PoolState(o.pool);
    requeue, err := ReconcileLists(api, rng, id, o, ps, book);
    ghost var prev, released := o.status.conditions, o.deleting && old(o.hasFinalizer) && !o.hasFinalizer;
    ps.NothingListed();
    ConfigurePool(ps, o, now);
    StatusTells(prev, ps.conds, now, PoolSettlement);
    StatusTells(prev, ps.conds, now, PoolAvailable);
    if o.deleting {
      assert released ==> o.status.replicas == 0;
      return;
    }
    var serr := api.WriteStatus();
    if serr.Some? && err.None? {
      err := serr;
    }
  }
}
