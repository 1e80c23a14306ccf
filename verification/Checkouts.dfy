/** The checkout handoff as an automaton: what one reconcile of a checkout holds
    in memory, the request it makes next, and how it goes on with the answer. */
module Checkouts {
  import opened Labels
  import opened Kube
  import opened Replica

  const RECLAIM_KEY := "pvpool.puppet.com/checkout.reclaim-policy"

  datatype Checkout = Checkout(
    uid: Uid, lockedKey: Key, claimKey: Key, pool: Key, accessModes: seq<AccessMode>)

  /** The two claim/volume pairs of a checkout: the locked pair takes the pool's
      volume, the final pair is what the requester gets. */
  datatype Held = Held(
    locked: Claim, lockedVolume: Option<NamedVolume>,
    claim: Claim, volume: Option<NamedVolume>)

  const NOTHING_HELD := Held(NEW_CLAIM, None, NEW_CLAIM, None)

  // ------------------------------------------------------------ configuration

  predicate ReadOnly(modes: seq<AccessMode>) {
    |modes| == 1 && modes[0] == ReadOnlyMany
  }

  /** Remember the original policy, once. */
  function Remembering(v: Volume): LabelMap {
    if RECLAIM_KEY in v.annotations then v.annotations
    else v.annotations[RECLAIM_KEY := v.spec.reclaimPolicy]
  }

  /** The requester's volume over the storage of `x`. */
  function FinalVolume(co: Checkout, x: Volume, n: Volume, claimUid: Uid): Volume {
    n.(labels := Overlay(n.labels, x.labels),
       annotations := Overlay(n.annotations, Remembering(x)),
       spec := x.spec.(
         accessModes := co.accessModes,
         claimRef := Some(ClaimRef(co.claimKey, claimUid)),
         reclaimPolicy := Remembering(x)[RECLAIM_KEY],
         csi := if x.spec.csi.Some? then Some(ReadOnly(co.accessModes)) else None))
  }

  /** The pool's volume, re-pointed at the locked claim and made safe. */
  function LockedVolume(co: Checkout, x: Volume, lockedUid: Uid): Volume {
    x.(annotations := Remembering(x),
       spec := x.spec.(claimRef := Some(ClaimRef(co.lockedKey, lockedUid)), reclaimPolicy := RETAIN))
  }

  function PointedAt(c: Claim, v: NamedVolume, modes: seq<AccessMode>): Claim {
    c.(spec := c.spec.(
         storageClass := Some(v.volume.spec.storageClass),
         volumeName := Some(v.name),
         accessModes := modes,
         request := v.volume.spec.capacity))
  }

  function Configured(co: Checkout, h: Held): Held {
    if h.claim.phase == Bound || h.lockedVolume.None? then h
    else
      var x := h.lockedVolume.value;
      var n := if h.volume.Some? then h.volume.value else NamedVolume(Derived(x.volume.uid), NEW_VOLUME);
      var final := n.(volume := FinalVolume(co, x.volume, n.volume, h.claim.uid));
      Held(
        PointedAt(h.locked, x, x.volume.spec.accessModes),
        Some(x.(volume := LockedVolume(co, x.volume, h.locked.uid))),
        PointedAt(h.claim, final, co.accessModes),
        Some(final))
  }

  function OwnedBy(co: Checkout, c: Claim): Claim {
    c.(controller := Some(CheckoutOwner(co.uid)))
  }

  /** Sync the UID the server gave the claim into the volume's claimRef. */
  function Synced(v: NamedVolume, uid: Uid): NamedVolume {
    if v.volume.spec.claimRef.Some? then
      v.(volume := v.volume.(spec := v.volume.spec.(claimRef := Some(v.volume.spec.claimRef.value.(uid := uid)))))
    else v
  }

  // --------------------------------------------------- looking into the pool

  datatype ScanPc = Listing | Reading | Scanned | ScanFailed

  /** Loading a pool: list the claims its selector matches, read each replica,
      and sort the ones it may use into three lists. */
  datatype Scan = Scan(
    pool: Pool, pc: ScanPc, todo: seq<Key>, cur: ReplicaProc,
    initializing: seq<Replica>, available: seq<Replica>, stale: seq<Replica>)

  function StartScan(pool: Pool): Scan {
    Scan(pool, Listing, [], StartReplica(pool, pool.key), [], [], [])
  }

  function NextKey(s: Scan): Scan {
    if s.todo == [] then s.(pc := Scanned)
    else s.(pc := Reading, todo := s.todo[1..], cur := StartReplica(s.pool, s.todo[0]))
  }

  function Sorted(s: Scan, r: Replica): Scan {
    if r.claim.controller != None && r.claim.controller != Some(PoolOwner(s.pool.uid)) then s
    else if Stale(r) then s.(stale := s.stale + [r])
    else if Available(r) then s.(available := s.available + [r])
    else s.(initializing := s.initializing + [r])
  }

  function NextScanCall(s: Scan): Option<Request> {
    match s.pc
    case Listing => Some(ListClaims(s.pool.key.namespace, s.pool.spec.selector))
    case Reading => NextReplicaCall(s.cur)
    case _ => None
  }

  function Continue(s: Scan, cur: ReplicaProc): Scan {
    match cur.pc
    case Ready => NextKey(Sorted(s, cur.mem))
    case Gone => NextKey(s)
    case Broken => s.(pc := ScanFailed)
    case _ => s.(cur := cur)
  }

  function ResumeScan(s: Scan, r: Response): Scan {
    match s.pc
    case Listing => if r.GotKeys? then NextKey(s.(todo := r.keys)) else s.(pc := ScanFailed)
    case Reading => Continue(s, ResumeReplica(s.cur, r))
    case _ => s
  }

  ghost function ReplayScan(s: Scan, log: seq<Exchange>): Option<Scan> {
    if log == [] then Some(s)
    else
      var x := log[|log| - 1];
      var q := ReplayScan(s, log[..|log| - 1]);
      if q.Some? && NextScanCall(q.value) == Some(x.req) && Fits(x.req, x.resp)
      then Some(ResumeScan(q.value, x.resp)) else None
  }

  /** The lists hold what they are for: stale are replicas whose claim is being deleted
      or lost or whose init job failed, and of the others those are available that have
      a volume and the mark. */
  ghost predicate WellSorted(initializing: seq<Replica>, available: seq<Replica>, stale: seq<Replica>) {
    && (forall r | r in stale :: r.claim.deleting || r.claim.phase == Lost || r.job.outcome.Failed?)
    && (forall r | r in initializing + available :: !r.claim.deleting && r.claim.phase != Lost && !r.job.outcome.Failed?)
    && (forall r | r in available ::
          r.volume.Some? && PHASE_KEY in r.claim.annotations && r.claim.annotations[PHASE_KEY] == AVAILABLE)
    && (forall r | r in initializing ::
          r.volume.None? || PHASE_KEY !in r.claim.annotations || r.claim.annotations[PHASE_KEY] != AVAILABLE)
  }

  lemma SortedWell(s: Scan, r: Replica)
    requires WellSorted(s.initializing, s.available, s.stale)
    ensures var q := Sorted(s, r); WellSorted(q.initializing, q.available, q.stale)
  {
  }

  lemma {:induction false} ScanSorts(pool: Pool, log: seq<Exchange>)
    requires ReplayScan(StartScan(pool), log).Some?
    ensures var q := ReplayScan(StartScan(pool), log).value; WellSorted(q.initializing, q.available, q.stale)
  {
    hide Sorted, ResumeReplica, Kube.Fits;
    if log != [] {
      var q := ReplayScan(StartScan(pool), log[..|log| - 1]).value;
      ScanSorts(pool, log[..|log| - 1]);
      SortedWell(q, ResumeReplica(q.cur, log[|log| - 1].resp).mem);
    }
  }

  // ----------------------------------------------------------------- automaton

  datatype Pc =
    | ReadLocked | ReadLockedVolume | ReadFinal | ReadFinalVolume
    | ReadPool | Scanning | Choosing
    | WriteLocked | WriteLockedVolume | WriteFinal | WriteFinalVolume
    | RemoveLockedVolume | RemoveLocked
    | Finished | Abandoned

  /** `seen` is what was read before configuration; `source` is the replica
      whose volume was picked from the pool in this reconcile. */
  datatype Proc = Proc(
    checkout: Checkout, pc: Pc, seen: Held, mem: Held, scan: Scan, source: Option<Replica>)

  const NO_POOL := Pool(Key("", ""), 0, PoolSpec(None, Selector(map[], []), Template(map[], map[], EMPTY_CLAIM_SPEC), None))

  function StartProc(co: Checkout): Proc {
    Proc(co, ReadLocked, NOTHING_HELD, NOTHING_HELD, StartScan(NO_POOL), None)
  }

  /** Configure, then start writing. */
  function BeginPersist(p: Proc): Proc {
    var m := Configured(p.checkout, p.mem);
    var q := p.(seen := p.mem, mem := m);
    if m.claim.phase == Bound then
      if m.lockedVolume.Some? then q.(pc := RemoveLockedVolume)
      else if m.locked.uid != 0 then q.(pc := RemoveLocked)
      else q.(pc := Finished)
    else q.(pc := WriteLocked, mem := m.(locked := OwnedBy(p.checkout, m.locked)))
  }

  function AfterRead(p: Proc): Proc {
    if p.mem.claim.phase != Bound && p.mem.lockedVolume.None? then p.(pc := ReadPool)
    else BeginPersist(p)
  }

  function AfterScan(p: Proc): Proc {
    match p.scan.pc
    case Scanned => if p.scan.available == [] then p.(pc := Abandoned) else p.(pc := Choosing)
    case ScanFailed => p.(pc := Abandoned)
    case _ => p
  }

  /** A replica that no other available one predates. */
  predicate Oldest(rs: seq<Replica>, i: nat) {
    i < |rs| && forall j | 0 <= j < |rs| :: rs[i].claim.created <= rs[j].claim.created
  }

  function Chosen(p: Proc, i: nat): Proc
    requires i < |p.scan.available|
  {
    var r := p.scan.available[i];
    BeginPersist(p.(mem := p.mem.(lockedVolume := r.volume), source := Some(r)))
  }

  function NextCall(p: Proc): Option<Request> {
    match p.pc
    case ReadLocked => Some(GetClaim(p.checkout.lockedKey))
    case ReadLockedVolume => Some(GetVolume(p.mem.locked.spec.volumeName))
    case ReadFinal => Some(GetClaim(p.checkout.claimKey))
    case ReadFinalVolume => Some(GetVolume(p.mem.claim.spec.volumeName))
    case ReadPool => Some(GetPool(p.checkout.pool))
    case Scanning => NextScanCall(p.scan)
    case WriteLocked => Some(PutClaim(p.checkout.lockedKey, p.mem.locked))
    case WriteLockedVolume =>
      if p.mem.lockedVolume.None? then None
      else Some(PutVolume(p.mem.lockedVolume.value.name, p.mem.lockedVolume.value.volume))
    case WriteFinal => Some(PutClaim(p.checkout.claimKey, p.mem.claim))
    case WriteFinalVolume =>
      if p.mem.volume.None? then None
      else Some(PutVolume(p.mem.volume.value.name, p.mem.volume.value.volume))
    case RemoveLockedVolume =>
      if p.mem.lockedVolume.None? then None
      else Some(DropVolume(p.mem.lockedVolume.value.name, p.mem.lockedVolume.value.volume.uid))
    case RemoveLocked => Some(DropClaim(p.checkout.lockedKey, p.mem.locked.uid))
    case _ => None
  }

  /** The volume a claim names, if it refers back to that claim. */
  function CrossReferenced(c: Claim, v: Option<Volume>): Option<NamedVolume> {
    if v.Some? && c.spec.volumeName.Some? && v.value.spec.claimRef.Some?
       && v.value.spec.claimRef.value.uid == c.uid
    then Some(NamedVolume(c.spec.volumeName.value, v.value)) else None
  }

  /** What becomes of a reconcile with the answer to its call; an answer to another
      call ends it. */
  function Resume(p: Proc, r: Response): Proc {
    match p.pc
    case ReadLocked =>
      if !r.GotClaim? then p.(pc := Abandoned)
      else if r.found.None? then p.(pc := ReadFinal)
      else
        var own := r.found.value.controller == Some(CheckoutOwner(p.checkout.uid));
        p.(pc := if own then ReadLockedVolume else Abandoned, mem := p.mem.(locked := r.found.value))
    case ReadLockedVolume =>
      if !r.GotVolume? then p.(pc := Abandoned)
      else p.(pc := ReadFinal, mem := p.mem.(lockedVolume := CrossReferenced(p.mem.locked, r.foundVolume)))
    case ReadFinal =>
      if !r.GotClaim? then p.(pc := Abandoned)
      else if r.found.None? then AfterRead(p)
      else
        var own := r.found.value.controller == Some(CheckoutOwner(p.checkout.uid));
        p.(pc := if own then ReadFinalVolume else Abandoned, mem := p.mem.(claim := r.found.value))
    case ReadFinalVolume =>
      if !r.GotVolume? then p.(pc := Abandoned)
      else AfterRead(p.(mem := p.mem.(volume := CrossReferenced(p.mem.claim, r.foundVolume))))
    case ReadPool =>
      if r.GotPool? && r.foundPool.Some? then p.(pc := Scanning, scan := StartScan(r.foundPool.value))
      else p.(pc := Abandoned)
    case Scanning => AfterScan(p.(scan := ResumeScan(p.scan, r)))
    case WriteLocked =>
      if !r.StoredClaim? then p.(pc := Abandoned)
      else if p.mem.lockedVolume.None? then p.(pc := Abandoned, mem := p.mem.(locked := r.claim))
      else
        var v := Synced(p.mem.lockedVolume.value, r.claim.uid);
        p.(pc := WriteLockedVolume, mem := p.mem.(locked := r.claim, lockedVolume := Some(v)))
    case WriteLockedVolume =>
      if !r.StoredVolume? || p.mem.lockedVolume.None? then p.(pc := Abandoned)
      else
        var v := p.mem.lockedVolume.value.(volume := r.volume);
        p.(pc := WriteFinal, mem := p.mem.(lockedVolume := Some(v), claim := OwnedBy(p.checkout, p.mem.claim)))
    case WriteFinal =>
      if !r.StoredClaim? then p.(pc := Abandoned)
      else if p.mem.volume.None? then p.(pc := Abandoned, mem := p.mem.(claim := r.claim))
      else
        var v := Synced(p.mem.volume.value, r.claim.uid);
        p.(pc := WriteFinalVolume, mem := p.mem.(claim := r.claim, volume := Some(v)))
    case WriteFinalVolume =>
      if !r.StoredVolume? || p.mem.volume.None? then p.(pc := Abandoned)
      else p.(pc := Finished, mem := p.mem.(volume := Some(p.mem.volume.value.(volume := r.volume))))
    case RemoveLockedVolume =>
      if !r.Dropped? then p.(pc := Abandoned)
      else p.(pc := if p.mem.locked.uid != 0 then RemoveLocked else Finished)
    case RemoveLocked => p.(pc := if r.Dropped? then Finished else Abandoned)
    case _ => p.(pc := Abandoned)
  }

  // ------------------------------------------------- how a reconcile goes on

  lemma ResumedLocked(p: Proc, c: Claim)
    requires p.pc == ReadLocked
    ensures Resume(p, GotClaim(None)) == p.(pc := ReadFinal)
    ensures Resume(p, GotClaim(Some(c)))
         == p.(pc := if c.controller == Some(CheckoutOwner(p.checkout.uid)) then ReadLockedVolume else Abandoned,
               mem := p.mem.(locked := c))
  {
    hide AfterRead, AfterScan, Synced, OwnedBy, ResumeScan;
  }

  lemma ResumedLockedVolume(p: Proc, v: Option<Volume>)
    requires p.pc == ReadLockedVolume
    ensures Resume(p, GotVolume(v))
         == p.(pc := ReadFinal, mem := p.mem.(lockedVolume := CrossReferenced(p.mem.locked, v)))
  {
    hide AfterRead, AfterScan, Synced, OwnedBy, CrossReferenced, ResumeScan;
  }

  lemma ResumedFinal(p: Proc, c: Claim)
    requires p.pc == ReadFinal
    ensures Resume(p, GotClaim(None)) == AfterRead(p)
    ensures Resume(p, GotClaim(Some(c)))
         == p.(pc := if c.controller == Some(CheckoutOwner(p.checkout.uid)) then ReadFinalVolume else Abandoned,
               mem := p.mem.(claim := c))
  {
    hide AfterRead, AfterScan, Synced, OwnedBy, ResumeScan;
  }

  lemma ResumedFinalVolume(p: Proc, v: Option<Volume>)
    requires p.pc == ReadFinalVolume
    ensures Resume(p, GotVolume(v)) == AfterRead(p.(mem := p.mem.(volume := CrossReferenced(p.mem.claim, v))))
  {
    hide AfterRead, AfterScan, Synced, OwnedBy, CrossReferenced, ResumeScan;
  }

  lemma ResumedPool(p: Proc, pool: Pool)
    requires p.pc == ReadPool
    ensures Resume(p, GotPool(None)) == p.(pc := Abandoned)
    ensures Resume(p, GotPool(Some(pool))) == p.(pc := Scanning, scan := StartScan(pool))
  {
    hide AfterRead, AfterScan, Synced, OwnedBy, ResumeScan;
  }

  lemma ResumedScan(p: Proc, r: Response)
    requires p.pc == Scanning
    ensures Resume(p, r) == AfterScan(p.(scan := ResumeScan(p.scan, r)))
  {
    hide AfterRead, AfterScan, Synced, OwnedBy, ResumeScan;
  }

  lemma ResumedRemoval(p: Proc, existed: bool)
    requires p.pc == RemoveLockedVolume || p.pc == RemoveLocked
    ensures Resume(p, Dropped(existed))
         == p.(pc := if p.pc == RemoveLockedVolume && p.mem.locked.uid != 0 then RemoveLocked else Finished)
  {
    hide AfterRead, AfterScan, Synced, OwnedBy, ResumeScan;
  }

  // -------------------------------------------------- properties of Configure

  /** Of the volume that was taken the requester's has every label and annotation, the
      storage, the size and the policy as it was at first; it refers to the final claim.
      The pool's own is retained and refers to the locked claim. */
  ghost predicate CarriedOver(co: Checkout, was: Held, now: Held) {
    && was.lockedVolume.Some? && now.lockedVolume.Some? && now.volume.Some?
    && var (o, l, f) := (was.lockedVolume.value.volume, now.lockedVolume.value.volume, now.volume.value.volume);
    && Bears(f.labels, o.labels) && Bears(f.annotations, o.annotations)
    && f.spec.handle == o.spec.handle && f.spec.capacity == o.spec.capacity
    && f.spec.reclaimPolicy == (if RECLAIM_KEY in o.annotations then o.annotations[RECLAIM_KEY] else o.spec.reclaimPolicy)
    && f.spec.claimRef == Some(ClaimRef(co.claimKey, now.claim.uid)) && f.spec.accessModes == co.accessModes
    && l.spec.reclaimPolicy == RETAIN && l.spec.claimRef == Some(ClaimRef(co.lockedKey, now.locked.uid))
    && l.spec.handle == o.spec.handle
  }

  lemma ConfiguredCarriesOver(co: Checkout, h: Held)
    requires h.claim.phase != Bound && h.lockedVolume.Some?
    ensures CarriedOver(co, h, Configured(co, h))
  {
  }

  /** Configuring twice is configuring once. */
  lemma ConfigureIdempotent(co: Checkout, h: Held)
    ensures Configured(co, Configured(co, h)) == Configured(co, h)
  {
    if h.claim.phase == Bound || h.lockedVolume.None? {
    } else {
      var c := Configured(co, h);
      var x, n := h.lockedVolume.value.volume, c.volume.value.volume;
      assert Remembering(c.lockedVolume.value.volume) == Remembering(x);
      assert Overlay(n.labels, x.labels) == n.labels;
      assert Overlay(n.annotations, Remembering(x)) == n.annotations;
    }
  }

  /** What a reconcile holds after it has written everything: the configured
      pairs, with whatever the server filled in. */
  predicate WrittenFrom(co: Checkout, h: Held, w: Held) {
    var c := Configured(co, h);
    && c.lockedVolume.Some? && c.volume.Some?
    && w.locked.spec == c.locked.spec
    && w.claim.spec == c.claim.spec
    && w.lockedVolume.Some? && w.volume.Some?
    && w.lockedVolume.value.name == c.lockedVolume.value.name
    && w.volume.value.name == c.volume.value.name
    && w.lockedVolume.value.volume.labels == c.lockedVolume.value.volume.labels
    && w.lockedVolume.value.volume.annotations == c.lockedVolume.value.volume.annotations
    && w.lockedVolume.value.volume.spec == Synced(c.lockedVolume.value, w.locked.uid).volume.spec
    && w.volume.value.volume.labels == c.volume.value.volume.labels
    && w.volume.value.volume.annotations == c.volume.value.volume.annotations
    && w.volume.value.volume.spec == Synced(c.volume.value, w.claim.uid).volume.spec
  }

  /** After a full write, reconfiguring what was written changes nothing: the
      next reconcile of an unbound checkout rewrites the same four objects. */
  lemma ConfigureStable(co: Checkout, h: Held, w: Held)
    requires h.claim.phase != Bound && h.lockedVolume.Some?
    requires WrittenFrom(co, h, w)
    ensures Configured(co, w) == w
  {
    if w.claim.phase != Bound {
      var x, n := w.lockedVolume.value.volume, w.volume.value.volume;
      assert Remembering(x) == x.annotations;
      assert Overlay(n.labels, x.labels) == n.labels;
      assert Overlay(n.annotations, Remembering(x)) == n.annotations;
      assert FinalVolume(co, x, n, w.claim.uid) == n;
      assert LockedVolume(co, x, w.locked.uid) == x;
    }
  }
}
