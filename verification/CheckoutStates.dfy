/** A checkout in the hands of its controller: two claims, two volumes, and the
    conditions to report.  Its API calls are those of the automaton in Checkouts. */
module CheckoutStates {
  import opened Labels
  import opened Kube
  import opened Checkouts
  import R = Replica
  import opened Conditions
  import opened Client
  import opened PoolReplicas
  import PoolStates

  datatype CheckoutCondition = Acquired

  const CHECKED_OUT := Condition(TRUE, "CheckedOut", "The PVC is ready to use.", 0)
  const POOL_DOES_NOT_EXIST := Condition(UNKNOWN, "PoolDoesNotExist", "The pool does not exist.", 0)
  const NOT_AVAILABLE := Condition(UNKNOWN, "NotAvailable", "The pool has no available PVCs to check out.", 0)
  const CONFLICT := Condition(UNKNOWN, "Conflict", "A non-controlled PVC with the same name already exists.", 0)
  const INVALID := Condition(FALSE, "Invalid", "The PVC could not be created because of configuration problems", 0)

  type Conds = map<CheckoutCondition, Condition>

  /** A claim as the controller holds it. */
  class ClaimObject {
    const key: Key
    var claim: Claim

    constructor (key: Key)
      ensures this.key == key && claim == NEW_CLAIM
    {
      this.key := key;
      claim := NEW_CLAIM;
    }
  }

  /** A place for a volume that may not be there. */
  class VolumeCell {
    var held: Option<NamedVolume>

    constructor ()
      ensures held == None
    {
      held := None;
    }
  }

  /** What follows configuration: the first write, or the removal of what is left. */
  function StartWriting(p: Proc): Proc {
    if p.mem.claim.phase == Bound then
      if p.mem.lockedVolume.Some? then p.(pc := RemoveLockedVolume)
      else if p.mem.locked.uid != 0 then p.(pc := RemoveLocked)
      else p.(pc := Finished)
    else p.(pc := WriteLocked, mem := p.mem.(locked := OwnedBy(p.checkout, p.mem.locked)))
  }

  lemma BeginIsConfigureAndWrite(p: Proc)
    ensures BeginPersist(p) == StartWriting(p.(seen := p.mem, mem := Configured(p.checkout, p.mem)))
  {
    hide Configured;
  }

  predicate Ownable(co: Checkout, c: Claim) {
    c.controller == None || c.controller == Some(CheckoutOwner(co.uid))
  }

  /** p waits for a choice among the available replicas; x is p having made one that
      no other predates. */
  ghost predicate Picks(p: Proc, x: Proc) {
    && p.pc == Choosing
    && exists i: nat :: Oldest(p.scan.available, i) && x == Picked(p, p.scan.available[i])
  }

  function Picked(p: Proc, r: R.Replica): Proc {
    p.(mem := p.mem.(lockedVolume := r.volume), source := Some(r))
  }

  /** What becomes of a reconcile with the answer to the write of a claim, or of the
      volume that is to refer to it. */
  lemma ClaimWritten(p: Proc, r: Response)
    requires p.pc == WriteLocked || p.pc == WriteFinal
    ensures var (q, locked) := (Resume(p, r), p.pc == WriteLocked);
      && q.checkout == p.checkout
      && (!r.StoredClaim? ==> q.pc == Abandoned)
      && (r.StoredClaim? ==>
            var v := if locked then p.mem.lockedVolume else p.mem.volume;
            var m := if locked then p.mem.(locked := r.claim) else p.mem.(claim := r.claim);
            if v.None? then q.pc == Abandoned
            else
              var now := Some(Synced(v.value, r.claim.uid));
              && q.pc == (if locked then WriteLockedVolume else WriteFinalVolume)
              && q.mem == if locked then m.(lockedVolume := now) else m.(volume := now))
  {
    hide AfterRead, AfterScan, Synced, OwnedBy, ResumeScan;
  }

  lemma VolumeWritten(p: Proc, r: Response)
    requires (p.pc == WriteLockedVolume && p.mem.lockedVolume.Some?) || (p.pc == WriteFinalVolume && p.mem.volume.Some?)
    ensures var (q, locked) := (Resume(p, r), p.pc == WriteLockedVolume);
      && q.checkout == p.checkout
      && (!r.StoredVolume? ==> q.pc == Abandoned)
      && (r.StoredVolume? ==>
            && q.pc == (if locked then WriteFinal else Finished)
            && q.mem ==
                 if locked then
                   p.mem.(lockedVolume := Some(p.mem.lockedVolume.value.(volume := r.volume)),
                          claim := OwnedBy(p.checkout, p.mem.claim))
                 else p.mem.(volume := Some(p.mem.volume.value.(volume := r.volume))))
  {
    hide AfterRead, AfterScan, Synced, OwnedBy, ResumeScan;
  }

  /** Between two moments a pool was asked for that is not there or could not be read. */
  ghost predicate PoolMissed(before: seq<Exchange>, now: seq<Exchange>) {
    exists i | |before| <= i < |now| ::
      now[i].req.GetPool? && (now[i].resp.Refused? || now[i].resp == GotPool(None))
  }

  /** Between two moments the server called a claim it was to store invalid. */
  ghost predicate ClaimInvalid(before: seq<Exchange>, now: seq<Exchange>) {
    exists i | |before| <= i < |now| :: now[i].req.PutClaim? && now[i].resp == Refused(ApiError.Invalid)
  }

  ghost predicate NoPoolAsked(before: seq<Exchange>, now: seq<Exchange>) {
    before <= now && forall i | |before| <= i < |now| :: !now[i].req.GetPool?
  }

  /** One or two calls more. */
  predicate Asked(before: seq<Exchange>, now: seq<Exchange>) {
    before <= now && |before| < |now| <= |before| + 2
  }

  lemma NothingAsked(now: seq<Exchange>)
    ensures NoPoolAsked(now, now) && !PoolMissed(now, now)
  {
  }

  lemma NoPoolAskedSince(before: seq<Exchange>, mid: seq<Exchange>, now: seq<Exchange>)
    requires NoPoolAsked(before, mid) && Asked(mid, now) && now[|mid|].req.GetClaim?
    requires |now| > |mid| + 1 ==> now[|mid| + 1].req.GetVolume?
    ensures NoPoolAsked(before, now) && !PoolMissed(before, now)
  {
    forall i | |before| <= i < |now| ensures !now[i].req.GetPool? {
      assert i < |mid| ==> now[i] == mid[i];
    }
  }

  lemma MissedSince(before: seq<Exchange>, mid: seq<Exchange>, now: seq<Exchange>)
    requires NoPoolAsked(before, mid) && mid <= now
    ensures PoolMissed(before, now) <==> PoolMissed(mid, now)
  {
    forall i | |before| <= i < |mid| ensures !now[i].req.GetPool? {
      assert now[i] == mid[i];
    }
  }

  /** These calls are the write of one claim, perhaps with that of a volume after it. */
  predicate PairWrites(before: seq<Exchange>, now: seq<Exchange>) {
    && Asked(before, now)
    && now[|before|].req.PutClaim?
    && (|now| > |before| + 1 ==> now[|before| + 1].req.PutVolume?)
  }

  lemma OneWrite(before: seq<Exchange>, x: Exchange)
    requires x.req.PutClaim?
    ensures PairWrites(before, before + [x])
    ensures ClaimInvalid(before, before + [x]) <==> x.resp == Refused(ApiError.Invalid)
  {
    assert (before + [x])[|before|] == x;
  }

  lemma TwoWrites(before: seq<Exchange>, x: Exchange, y: Exchange)
    requires x.req.PutClaim? && y.req.PutVolume?
    ensures PairWrites(before, before + [x] + [y])
    ensures ClaimInvalid(before, before + [x] + [y]) <==> x.resp == Refused(ApiError.Invalid)
  {
    assert (before + [x] + [y])[|before|] == x;
  }

  lemma InvalidSince(before: seq<Exchange>, mid: seq<Exchange>, now: seq<Exchange>)
    requires before <= mid <= now && !ClaimInvalid(before, mid)
    ensures ClaimInvalid(before, now) <==> ClaimInvalid(mid, now)
  {
    forall i | |before| <= i < |mid| ensures now[i] == mid[i] {
    }
  }

  /** Looking into a pool asks for no pool. */
  lemma {:induction false} ScanAsksNoPool(s: Scan, log: seq<Exchange>)
    requires ReplayScan(s, log).Some?
    ensures forall i | 0 <= i < |log| :: !log[i].req.GetPool?
  {
    hide ResumeScan, Kube.Fits;
    if log != [] {
      ScanAsksNoPool(s, log[..|log| - 1]);
      assert forall i | 0 <= i < |log| - 1 :: log[i] == log[..|log| - 1][i];
    }
  }

  lemma ScanAskedNoPool(s: Scan, before: seq<Exchange>, now: seq<Exchange>)
    requires ScanAfter(s, before, now).Some?
    ensures NoPoolAsked(before, now)
  {
    hide ReplayScan;
    ScanAsksNoPool(s, now[|before|..]);
    assert forall i | |before| <= i < |now| :: now[i] == now[|before|..][i - |before|];
  }

  class CheckoutState {
    const checkout: Checkout
    const lockedClaim: ClaimObject
    const lockedVolume: VolumeCell
    const finalClaim: ClaimObject
    const finalVolume: VolumeCell
    var conds: Conds

    constructor (checkout: Checkout)
      ensures Valid() && Held() == NOTHING_HELD && conds == map[] && this.checkout == checkout
      ensures fresh(lockedClaim) && fresh(lockedVolume) && fresh(finalClaim) && fresh(finalVolume)
    {
      this.checkout := checkout;
      lockedClaim := new ClaimObject(checkout.lockedKey);
      lockedVolume := new VolumeCell();
      finalClaim := new ClaimObject(checkout.claimKey);
      finalVolume := new VolumeCell();
      conds := map[];
    }

    ghost predicate Valid() {
      && lockedClaim != finalClaim && lockedVolume != finalVolume
      && lockedClaim.key == checkout.lockedKey && finalClaim.key == checkout.claimKey
    }

    /** What is held in memory. */
    function Held(): Held
      reads lockedClaim, lockedVolume, finalClaim, finalVolume
    {
      Checkouts.Held(lockedClaim.claim, lockedVolume.held, finalClaim.claim, finalVolume.held)
    }

    predicate Owned()
      reads lockedClaim, finalClaim
    {
      Ownable(checkout, lockedClaim.claim) && Ownable(checkout, finalClaim.claim)
    }

    // ------------------------------------------------------------------ loading

    /** Reads one of the two claims and the volume it names. */
    method LoadPair(api: Client, c: ClaimObject, v: VolumeCell, ghost p: Proc)
      returns (err: Option<Failure>, ghost x: Proc)
      requires Valid() && Owned() && p.checkout == checkout && p.mem == Held()
      requires (p.pc == ReadLocked && c == lockedClaim && v == lockedVolume)
            || (p.pc == ReadFinal && c == finalClaim && v == finalVolume)
      requires v.held == None
      modifies c, v, `conds, api`calls, api`log
      ensures var q := ProcAfter(p, old(api.log), api.log);
        && q.Some?
        && (err.Some? <==> q.value.pc == Abandoned)
        && (err.None? ==>
              && Owned() && x.mem == Held() && x.checkout == checkout && x.source == p.source
              && if p.pc == ReadLocked then q.value == x && x.pc == ReadFinal else q.value == AfterRead(x))
      ensures conds == if err == Some(NameTaken) then old(conds)[Acquired := CONFLICT] else old(conds)
      ensures err != Some(NoneAvailable)
      ensures Asked(old(api.log), api.log) && api.log[|old(api.log)|].req.GetClaim?
        && (|api.log| > |old(api.log)| + 1 ==> api.log[|old(api.log)| + 1].req.GetVolume?)
      ensures var found := api.log[|old(api.log)|].resp;
        err == Some(NameTaken) <==>
          found.GotClaim? && found.found.Some? && found.found.value.controller != Some(CheckoutOwner(checkout.uid))
    {
      hide ResumeScan, NextScanCall, FinalVolume, AfterScan, Synced, ProcAfter, LockedVolume, StartScan;
      ghost var before := api.log;
      ProcStart(p, before);
      hide AfterRead;
      err, x := None, p;
      var got := api.Call(GetClaim(c.key));
      ProcStep(p, before, before, api.log[|before|], p);
      if got.Refused? {
        return Some(Api(got.error)), x;
      }
      if got.found.None? {
        x := if p.pc == ReadLocked then p.(pc := ReadFinal) else p;
        return;
      }
      c.claim := got.found.value;
      if c.claim.controller != Some(CheckoutOwner(checkout.uid)) {
        conds := conds[Acquired := CONFLICT];
        return Some(NameTaken), x;
      }
      ghost var p1 := p.(pc := if p.pc == ReadLocked then ReadLockedVolume else ReadFinalVolume, mem := Held());
      ghost var log1 := api.log;

      var volume := api.Call(GetVolume(c.claim.spec.volumeName));
      ProcStep(p, before, log1, api.log[|log1|], p1);
      if volume.Refused? {
        return Some(Api(volume.error)), x;
      }
      // The volume must refer back to the claim for the pre-bind to succeed.
      if volume.foundVolume.Some? && volume.foundVolume.value.spec.claimRef.Some?
         && volume.foundVolume.value.spec.claimRef.value.uid == c.claim.uid && c.claim.spec.volumeName.Some? {
        v.held := Some(NamedVolume(c.claim.spec.volumeName.value, volume.foundVolume.value));
      }
      x := p1.(pc := if p.pc == ReadLocked then ReadFinal else p1.pc, mem := Held());
    }

    /** Looks into the pool and takes the volume of an available replica that no
        other one predates.  Reports exactly that the pool could not be read, or that
        it was read and has none available. */
    method LoadFromPool(api: Client, ghost p: Proc) returns (err: Option<Failure>, ghost x: Proc)
      requires Valid() && p.checkout == checkout && p.mem == Held() && p.pc == ReadPool
      modifies lockedVolume, `conds, api`calls, api`log
      ensures var q := ProcAfter(p, old(api.log), api.log);
        && q.Some?
        && (err.Some? <==> q.value.pc == Abandoned)
        && (err.None? ==> x.mem == Held() && x.checkout == checkout && Picks(q.value, x))
        && (PoolMissed(old(api.log), api.log) ||
              (err == Some(NoneAvailable) <==> q.value.scan.pc == Scanned && q.value.scan.available == []))
      ensures conds ==
        if PoolMissed(old(api.log), api.log) then old(conds)[Acquired := POOL_DOES_NOT_EXIST]
        else if err == Some(NoneAvailable) then old(conds)[Acquired := NOT_AVAILABLE]
        else old(conds)
      ensures PoolMissed(old(api.log), api.log) ==> err.Some? && err != Some(NoneAvailable)
      ensures err != Some(NameTaken) && old(api.log) <= api.log
    {
      hide ResumeScan, AfterRead, R.NextReplicaCall, AfterScan, Synced, ProcAfter, ScanAfter, CrossReferenced;
      ghost var before := api.log;
      ProcStart(p, before);
      x := p;
      var got := api.Call(GetPool(checkout.pool));
      ProcStep(p, before, before, api.log[|before|], p);
      if got.Refused? {
        conds := conds[Acquired := POOL_DOES_NOT_EXIST];
        assert PoolMissed(before, api.log);
        return Some(Api(got.error)), x;
      }
      if got.foundPool.None? {
        conds := conds[Acquired := POOL_DOES_NOT_EXIST];
        assert PoolMissed(before, api.log);
        return Some(NoSuchPool), x;
      }
      ghost var p1, log1 := p.(pc := Scanning, scan := StartScan(got.foundPool.value)), api.log;
      var pr;
      ghost var q, k;
      err, pr, q, k := OldestAvailable(api, got.foundPool.value);
      Looked(p, p1, before, log1, api.log, q);
      ScanAskedNoPool(p1.scan, log1, api.log);
      if err == Some(NoneAvailable) {
        conds := conds[Acquired := NOT_AVAILABLE];
      }
      if err.None? {
        lockedVolume.held := pr.volume;
        x := Picked(p1.(pc := Choosing, scan := q), q.available[k]);
      }
    }

    /** Loads both pairs and, if the final claim is not bound and no volume was taken
        yet, takes one from the pool.  On success the controller is where the
        automaton starts writing once what is held is configured; an error is reported
        if a claim is somebody else's, the pool could not be read or it has none
        available, each as that, and otherwise it is not. */
    method Load(api: Client) returns (err: Option<Failure>, ghost x: Proc)
      requires Valid() && Held() == NOTHING_HELD
      modifies lockedClaim, lockedVolume, finalClaim, finalVolume, `conds, api`calls, api`log
      ensures var q := ProcAfter(StartProc(checkout), old(api.log), api.log);
        && q.Some?
        && (err.Some? <==> q.value.pc == Abandoned)
        && (err.None? ==>
              && x.mem == Held() && x.checkout == checkout && Owned()
              && (q.value == BeginPersist(x) || Picks(q.value, x)))
      ensures conds ==
        if PoolMissed(old(api.log), api.log) then old(conds)[Acquired := POOL_DOES_NOT_EXIST]
        else if err == Some(NoneAvailable) then old(conds)[Acquired := NOT_AVAILABLE]
        else if err == Some(NameTaken) then old(conds)[Acquired := CONFLICT]
        else old(conds)
      ensures PoolMissed(old(api.log), api.log) ==> err.Some? && err != Some(NoneAvailable) && err != Some(NameTaken)
    {
      hide ProcAfter, PoolMissed, NoPoolAsked;
      ghost var p0, before := StartProc(checkout), api.log;
      ProcStart(p0, before);
      NothingAsked(before);
      hide Configured, AfterRead, BeginPersist;
      var pairs := [(lockedClaim, lockedVolume), (finalClaim, finalVolume)];
      ghost var p, y := p0, p0;
      err, x := None, p0;
      var i := 0;
      while i < 2
        invariant 0 <= i <= 2 && err.None? && ProcAfter(p0, before, api.log) == Some(p)
        invariant Owned() && y.checkout == checkout && y.mem == Held()
        invariant i == 0 ==> Held() == NOTHING_HELD
        invariant i < 2 ==> p == y && p.pc == (if i == 0 then ReadLocked else ReadFinal) && finalVolume.held == None
        invariant i == 2 ==> p == AfterRead(y)
        invariant conds == old(conds) && NoPoolAsked(before, api.log) && !PoolMissed(before, api.log)
      {
        ghost var log1 := api.log;
        ghost var was := p;
        err, y := LoadPair(api, pairs[i].0, pairs[i].1, p);
        NoPoolAskedSince(before, log1, api.log);
        p := ProcAfter(was, log1, api.log).value;
        ProcThen(p0, before, log1, api.log, was);
        if err.Some? {
          return;
        }
        i := i + 1;
      }
      x := y;
      if finalClaim.claim.phase != Bound && lockedVolume.held == None {
        ghost var log1 := api.log;
        err, x := LoadFromPool(api, p);
        ProcThen(p0, before, log1, api.log, p);
        MissedSince(before, log1, api.log);
      }
    }

    // -------------------------------------------------------------- configuring

    /** Overwrites the held objects with what they shall be: of a volume that was
        taken the policy is remembered and everything else carried over. */
    method Configure()
      requires Valid()
      modifies lockedClaim, lockedVolume, finalClaim, finalVolume
      ensures Held() == Configured(checkout, old(Held()))
      ensures old(finalClaim.claim.phase != Bound && lockedVolume.held.Some?) ==> CarriedOver(checkout, old(Held()), Held())
    {
      hide CarriedOver;
      if finalClaim.claim.phase == Bound || lockedVolume.held == None {
        return;
      }
      ConfiguredCarriesOver(checkout, Held());
      var x := lockedVolume.held.value;
      if finalVolume.held == None {
        finalVolume.held := Some(NamedVolume(Derived(x.volume.uid), NEW_VOLUME));
      }
      // Remember the original policy once: after the first write the volume no
      // longer has it.
      if RECLAIM_KEY !in x.volume.annotations {
        x := x.(volume := x.volume.(annotations := x.volume.annotations[RECLAIM_KEY := x.volume.spec.reclaimPolicy]));
      }
      var n := finalVolume.held.value;
      var v := n.volume.(
        labels := Overlay(n.volume.labels, x.volume.labels),
        annotations := Overlay(n.volume.annotations, x.volume.annotations),
        spec := x.volume.spec);
      v := v.(spec := v.spec.(
        accessModes := checkout.accessModes,
        claimRef := Some(ClaimRef(finalClaim.key, finalClaim.claim.uid)),
        reclaimPolicy := x.volume.annotations[RECLAIM_KEY]));
      if v.spec.csi.Some? {
        v := v.(spec := v.spec.(csi := Some(ReadOnly(v.spec.accessModes))));
      }
      finalVolume.held := Some(NamedVolume(n.name, v));
      finalClaim.claim := PointedAt(finalClaim.claim, finalVolume.held.value, checkout.accessModes);

      x := x.(volume := x.volume.(spec := x.volume.spec.(
        claimRef := Some(ClaimRef(lockedClaim.key, lockedClaim.claim.uid)), reclaimPolicy := RETAIN)));
      lockedVolume.held := Some(x);
      lockedClaim.claim := PointedAt(lockedClaim.claim, x, x.volume.spec.accessModes);
    }

    // --------------------------------------------------------------- persisting

    /** Owns and writes one claim, and then the volume that is to refer to it. */
    method PersistPair(api: Client, c: ClaimObject, v: VolumeCell, ghost p: Proc)
      returns (err: Option<Failure>, ghost q: Proc)
      requires Valid() && p.checkout == checkout && p.mem == Held().(locked := p.mem.locked, claim := p.mem.claim)
      requires (p.pc == WriteLocked && c == lockedClaim && v == lockedVolume
                && p.mem.locked == OwnedBy(checkout, c.claim) && p.mem.claim == finalClaim.claim)
            || (p.pc == WriteFinal && c == finalClaim && v == finalVolume
                && p.mem.claim == OwnedBy(checkout, c.claim) && p.mem.locked == lockedClaim.claim)
      requires Ownable(checkout, c.claim)
      modifies c, v, `conds, api`calls, api`log
      ensures ProcAfter(p, old(api.log), api.log) == Some(q) && q.checkout == checkout
      ensures err.Some? <==> q.pc == Abandoned
      ensures err.None? && p.pc == WriteLocked ==>
        && q.pc == WriteFinal && q.mem == Held().(claim := q.mem.claim) && q.mem.claim == OwnedBy(checkout, finalClaim.claim)
      ensures err.None? && p.pc == WriteFinal ==> q.pc == Finished && q.mem == Held()
      ensures conds == if ClaimInvalid(old(api.log), api.log) then old(conds)[Acquired := INVALID] else old(conds)
      ensures PairWrites(old(api.log), api.log) && (ClaimInvalid(old(api.log), api.log) ==> err.Some?)
    {
      hide Resume, Synced, ProcAfter, NextScanCall, OwnedBy, ClaimInvalid, PairWrites;
      ghost var before := api.log;
      ProcStart(p, before);
      err, q := None, p;
      c.claim := OwnedBy(checkout, c.claim);

      var stored := api.Call(PutClaim(c.key, c.claim));
      ghost var first := Exchange(PutClaim(c.key, c.claim), stored);
      ProcStep(p, before, before, first, p);
      OneWrite(before, first);
      ClaimWritten(p, stored);
      q := Resume(p, stored);
      if stored.Refused? {
        if stored.error == ApiError.Invalid {
          conds := conds[Acquired := INVALID];
        }
        return Some(Api(stored.error)), q;
      }
      c.claim := stored.claim;
      if v.held == None {
        return Some(MissingVolume), q;
      }
      v.held := Some(Synced(v.held.value, c.claim.uid));
      ghost var log1, p1 := api.log, q;

      var written := api.Call(PutVolume(v.held.value.name, v.held.value.volume));
      ghost var second := Exchange(PutVolume(v.held.value.name, v.held.value.volume), written);
      ProcStep(p, before, log1, second, p1);
      TwoWrites(before, first, second);
      VolumeWritten(p1, written);
      q := Resume(p1, written);
      if written.Refused? {
        return Some(Api(written.error)), q;
      }
      v.held := Some(v.held.value.(volume := written.volume));
    }

    /** Writes both pairs or, once the final claim is bound, removes the locked one.
        The calls are those of the automaton from the configured state on. */
    method Persist(api: Client, ghost x: Proc) returns (err: Option<Failure>, ghost q: Proc)
      requires Valid() && Owned() && x.checkout == checkout && x.mem == Held()
      modifies lockedClaim, lockedVolume, finalClaim, finalVolume, `conds, api`calls, api`log
      ensures ProcAfter(StartWriting(x), old(api.log), api.log) == Some(q)
      ensures if err.None? then q.pc == Finished else q.pc == Abandoned
      ensures conds ==
        if old(finalClaim.claim.phase) == Bound then old(conds)[Acquired := CHECKED_OUT]
        else if ClaimInvalid(old(api.log), api.log) then old(conds)[Acquired := INVALID]
        else old(conds)
    {
      hide ProcAfter;
      if finalClaim.claim.phase == Bound {
        conds := conds[Acquired := CHECKED_OUT];
        err, q := RemovePair(api, StartWriting(x));
      } else {
        err, q := PersistPairs(api, StartWriting(x));
      }
    }

    /** Writes one pair after the other. */
    method PersistPairs(api: Client, ghost p0: Proc) returns (err: Option<Failure>, ghost q: Proc)
      requires Valid() && Owned() && p0.checkout == checkout && p0.pc == WriteLocked
      requires p0.mem == Held().(locked := OwnedBy(checkout, lockedClaim.claim))
      modifies lockedClaim, lockedVolume, finalClaim, finalVolume, `conds, api`calls, api`log
      ensures ProcAfter(p0, old(api.log), api.log) == Some(q)
      ensures if err.None? then q.pc == Finished else q.pc == Abandoned
      ensures conds == if ClaimInvalid(old(api.log), api.log) then old(conds)[Acquired := INVALID] else old(conds)
      ensures ClaimInvalid(old(api.log), api.log) ==> err.Some?
    {
      hide ProcAfter;
      ghost var before := api.log;
      ProcStart(p0, before);
      hide OwnedBy;
      q := p0;
      var pairs := [(lockedClaim, lockedVolume), (finalClaim, finalVolume)];
      err := None;
      var i := 0;
      while i < 2
        invariant 0 <= i <= 2 && err.None? && ProcAfter(p0, before, api.log) == Some(q) && q.checkout == checkout
        invariant i == 0 ==> q == p0 && Owned() && p0.mem == Held().(locked := OwnedBy(checkout, lockedClaim.claim))
        invariant i == 1 ==>
          && q.pc == WriteFinal && Ownable(checkout, finalClaim.claim)
          && q.mem == Held().(claim := q.mem.claim) && q.mem.claim == OwnedBy(checkout, finalClaim.claim)
        invariant i == 2 ==> q.pc == Finished
        invariant conds == old(conds) && before <= api.log && !ClaimInvalid(before, api.log)
      {
        ghost var log1, was := api.log, q;
        err, q := PersistPair(api, pairs[i].0, pairs[i].1, was);
        InvalidSince(before, log1, api.log);
        ProcThen(p0, before, log1, api.log, was);
        if err.Some? {
          return;
        }
        i := i + 1;
      }
    }

    /** Removes the locked volume and then the locked claim, as far as they are there. */
    method RemovePair(api: Client, ghost p: Proc) returns (err: Option<Failure>, ghost q: Proc)
      requires Valid() && p.checkout == checkout && p.mem == Held() && finalClaim.claim.phase == Bound && p == StartWriting(p)
      modifies api`calls, api`log
      ensures ProcAfter(p, old(api.log), api.log) == Some(q)
      ensures if err.None? then q.pc == Finished else q.pc == Abandoned
    {
      hide ResumeScan, AfterRead;
      ghost var before := api.log;
      ProcStart(p, before);
      hide ProcAfter;
      err, q := None, p;
      if lockedVolume.held.Some? {
        var v := lockedVolume.held.value;
        var dropped := api.Call(DropVolume(v.name, v.volume.uid));
        ProcStep(p, before, before, api.log[|before|], p);
        q := Resume(p, dropped);
        if dropped.Refused? {
          return Some(Api(dropped.error)), q;
        }
      }
      if lockedClaim.claim.uid != 0 {
        ghost var log1, p1 := api.log, q;
        var dropped := api.Call(DropClaim(lockedClaim.key, lockedClaim.claim.uid));
        ProcStep(p, before, log1, api.log[|log1|], p1);
        q := Resume(p1, dropped);
        if dropped.Refused? {
          return Some(Api(dropped.error)), q;
        }
      }
    }
  }

  // --------------------------------------------------------------- reconciling

  datatype CheckoutStatus = CheckoutStatus(
    volumeName: Option<VolumeName>, claimName: Option<string>, conditions: seq<Typed<CheckoutCondition>>)

  const KINDS := [Acquired]

  /** The status of the checkout resource that is reconciled. */
  class CheckoutObject {
    var status: CheckoutStatus

    constructor (status: CheckoutStatus)
      ensures this.status == status
    {
      this.status := status;
    }
  }

  method ConfigureCheckout(cs: CheckoutState, o: CheckoutObject, now: CheckoutCondition -> Time)
    modifies o
    ensures o.status.volumeName == if cs.finalVolume.held.Some? then Some(cs.finalVolume.held.value.name) else None
    ensures o.status.claimName
         == if cs.finalVolume.held.Some? && cs.finalClaim.claim.phase == Bound then Some(cs.finalClaim.key.name) else None
    ensures o.status.conditions == Refreshed(KINDS, old(o.status.conditions), cs.conds, now)
  {
    if cs.finalVolume.held == None {
      // Something went wrong while loading.
      o.status := o.status.(volumeName := None, claimName := None);
    } else {
      o.status := o.status.(volumeName := Some(cs.finalVolume.held.value.name));
      if cs.finalClaim.claim.phase == Bound {
        o.status := o.status.(claimName := Some(cs.finalClaim.key.name));
      } else {
        o.status := o.status.(claimName := None);
      }
    }
    var conds := [];
    var i := 0;
    while i < |KINDS|
      invariant i <= |KINDS| && conds == Refreshed(KINDS, old(o.status.conditions), cs.conds, now)[..i]
    {
      var prev := Lookup(o.status.conditions, KINDS[i]);
      var next := Reported(cs.conds, KINDS[i]);
      conds := conds + [Typed(KINDS[i], UpdateCondition(prev, next, now(KINDS[i])))];
      i := i + 1;
    }
    o.status := o.status.(conditions := conds);
  }

  lemma StatusTells(prev: seq<Typed<CheckoutCondition>>, conds: Conds, now: CheckoutCondition -> Time)
    ensures Lookup(Refreshed(KINDS, prev, conds, now), Acquired).status == TRUE
       <==> (Acquired in conds && conds[Acquired].status == TRUE)
  {
    assert KINDS[0] == Acquired;
    LookupRefreshed(KINDS, prev, conds, now, Acquired);
  }

  /** The whole reconcile as a run of the automaton: it reads up to the moment `mid`,
      where it either starts writing from x or has just made its choice x, and then
      writes; or it gave up while reading. */
  ghost predicate Follows(co: Checkout, before: seq<Exchange>, mid: seq<Exchange>, after: seq<Exchange>,
                          x: Option<Proc>, failed: bool)
  {
    var q := ProcAfter(StartProc(co), before, mid);
    && q.Some?
    && if x.None? then failed && q.value.pc == Abandoned && mid == after
       else
         && (q.value == BeginPersist(x.value) || Picks(q.value, x.value))
         && var r := ProcAfter(BeginPersist(x.value), mid, after);
         && r.Some? && r.value.pc == (if failed then Abandoned else Finished)
  }

  /** One reconcile.  Its calls are a run of the handoff automaton, to the end if
      there was no error; the status is written once on whatever exit, and says
      Acquired exactly if the final claim was found bound. */
  method Reconcile(api: Client, co: Checkout, o: CheckoutObject, now: CheckoutCondition -> Time)
    returns (requeue: bool, err: Option<Failure>, ghost mid: seq<Exchange>, ghost x: Option<Proc>)
    modifies o, api
    ensures api.statusWrites == old(api.statusWrites) + 1
    ensures Follows(co, old(api.log), mid, api.log, x, true) || Follows(co, old(api.log), mid, api.log, x, false)
    ensures err.None? ==> Follows(co, old(api.log), mid, api.log, x, false)
    ensures requeue <==> x.None?
    ensures Lookup(o.status.conditions, Acquired).status == TRUE <==> x.Some? && x.value.mem.claim.phase == Bound
  {
    hide ProcAfter, BeginPersist, Refreshed;
    var cs := new CheckoutState(co);
    ghost var prev := o.status.conditions;
    requeue, err, mid, x := ReconcileState(api, cs);
    ConfigureCheckout(cs, o, now);
    StatusTells(prev, cs.conds, now);
    var serr := api.WriteStatus();
    if serr.Some? && err.None? {
      err := serr;
    }
  }

  /** Everything but the status. */
  method ReconcileState(api: Client, cs: CheckoutState)
    returns (requeue: bool, err: Option<Failure>, ghost mid: seq<Exchange>, ghost x: Option<Proc>)
    requires cs.Valid() && cs.Held() == NOTHING_HELD && cs.conds == map[]
    modifies cs, cs.lockedClaim, cs.lockedVolume, cs.finalClaim, cs.finalVolume, api`calls, api`log
    ensures Follows(cs.checkout, old(api.log), mid, api.log, x, err.Some?)
    ensures requeue <==> x.None?
    ensures (Acquired in cs.conds && cs.conds[Acquired].status == TRUE) <==> (x.Some? && x.value.mem.claim.phase == Bound)
  {
    hide ProcAfter;
    ghost var y;
    err, y := cs.Load(api);
    mid, x := api.log, None;
    if err.Some? {
      requeue := true;
      return;
    }
    requeue, x := false, Some(y);
    cs.Configure();
    BeginIsConfigureAndWrite(y);
    ghost var q;
    err, q := cs.Persist(api, y.(seen := y.mem, mem := cs.Held()));
  }

  /** Loads the pool and takes the oldest available replica, if there is one. */
  method OldestAvailable(api: Client, pool: Pool)
    returns (err: Option<Failure>, pr: PoolReplica?, ghost q: Scan, ghost i: nat)
    modifies api`calls, api`log
    ensures ScanAfter(StartScan(pool), old(api.log), api.log) == Some(q)
    ensures err.Some? && err != Some(NoneAvailable) ==> q.pc == ScanFailed
    ensures err == Some(NoneAvailable) ==> q.pc == Scanned && q.available == []
    ensures err != Some(NameTaken)
    ensures err.None? ==>
      q.pc == Scanned && Oldest(q.available, i) && q.available != [] && pr != null && pr.State() == q.available[i]
  {
    hide ScanAfter, WellSorted;
    var ps := new PoolStates.PoolState(pool);
    pr, i := null, 0;
    err := ps.Load(api);
    q := ScanAfter(StartScan(pool), old(api.log), api.log).value;
    if err.Some? {
      return;
    }
    if |ps.available.items| == 0 {
      return Some(NoneAvailable), null, q, i;
    }
    ghost var was := ps.available.items;
    ps.available.SortByCreation();
    pr := ps.available.items[0];
    i := OldestFirst(was, ps.available.items);
  }

  /** The checkout's calls while it loads the pool are the scan's. */
  lemma Looked(p: Proc, p1: Proc, before: seq<Exchange>, now: seq<Exchange>, after: seq<Exchange>, q: Scan)
    requires ProcAfter(p, before, now) == Some(p1) && p1.pc == Scanning && NextScanCall(p1.scan).Some?
    requires ScanAfter(p1.scan, now, after) == Some(q)
    ensures ProcAfter(p, before, after) == Some(AfterScan(p1.(scan := q)))
    ensures AfterScan(p1.(scan := q)).scan == q
    ensures q.pc == ScanFailed ==> AfterScan(p1.(scan := q)).pc == Abandoned
    ensures q.pc == Scanned ==>
      AfterScan(p1.(scan := q)) == p1.(scan := q, pc := if q.available == [] then Abandoned else Choosing)
  {
    hide ReplayProc, ReplayScan;
    LookingRuns(p1, after[|now|..]);
    ProcThen(p, before, now, after, p1);
  }

  /** The first of the sorted replicas is one that no other predates. */
  lemma OldestFirst(was: seq<PoolReplica>, now: seq<PoolReplica>) returns (i: nat)
    requires multiset(now) == multiset(was) && now != []
    requires forall a, b | 0 <= a < b < |now| :: NoLater(now[a], now[b])
    ensures i < |was| && was[i] == now[0] && Oldest(States(was), i)
  {
    assert now[0] in multiset(was);
    i :| 0 <= i < |was| && was[i] == now[0];
    forall j | 0 <= j < |was| ensures NoLater(now[0], was[j]) {
      assert was[j] in multiset(now);
      var k :| 0 <= k < |now| && now[k] == was[j];
    }
  }
}
