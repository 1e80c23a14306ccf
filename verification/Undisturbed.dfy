/** One reconcile of a checkout that nobody disturbs: what it reads, that its writes
    are accepted, and what they leave in the cluster. */
module Undisturbed {
  import opened Kube
  import opened Replica
  import opened Checkouts
  import opened Selection

  /** The cluster and a reconcile that is left alone with it. */
  datatype Alone = Alone(cluster: Cluster, proc: Proc)

  /** Its next call, answered.  A list call is answered with `listing`. */
  function Call(a: Alone, listing: seq<Key>): Alone {
    match NextCall(a.proc)
    case None => a
    case Some(req) =>
      var (s, r) := Serve(a.cluster, req, listing);
      Alone(s, Resume(a.proc, r))
  }

  function Calls(a: Alone, listing: seq<Key>, n: nat): Alone
    decreases n
  {
    if n == 0 then a else Calls(Call(a, listing), listing, n - 1)
  }

  lemma {:induction false} CallsSum(a: Alone, listing: seq<Key>, m: nat, n: nat)
    ensures Calls(Calls(a, listing, m), listing, n) == Calls(a, listing, m + n)
    decreases m
  {
    hide Call;
    if m != 0 {
      CallsSum(Call(a, listing), listing, m - 1, n);
    }
  }

  lemma {:induction false} Idling(a: Alone, listing: seq<Key>, n: nat)
    requires NextCall(a.proc) == None
    ensures Calls(a, listing, n) == a
  {
    hide NextCall, Resume, Serve;
    if n != 0 {
      Idling(a, listing, n - 1);
    }
  }

  lemma Answered(a: Alone, listing: seq<Key>, req: Request)
    requires NextCall(a.proc) == Some(req)
    ensures var (s, r) := Serve(a.cluster, req, listing); Call(a, listing) == Alone(s, Resume(a.proc, r))
  {
    hide NextCall, Serve, Resume;
  }

  // -------------------------------------------------------------------- reading

  /** A claim under this name is the checkout's own. */
  predicate FreeOrOwn(s: Cluster, k: Key, c: Uid) {
    k in s.claims ==> s.claims[k].controller == Some(CheckoutOwner(c))
  }

  /** The volume a claim names, if it refers back to it. */
  function VolumeFor(s: Cluster, c: Claim): Option<NamedVolume> {
    CrossReferenced(c, if c.spec.volumeName.Some? then Find(s.volumes, c.spec.volumeName.value) else None)
  }

  /** What a reconcile that is left alone will have read. */
  function HeldAt(s: Cluster, co: Checkout): Held {
    var l, f := ClaimAt(s, co.lockedKey), ClaimAt(s, co.claimKey);
    Held(l, VolumeFor(s, l), f, VolumeFor(s, f))
  }

  /** Reading the pair under the locked name, in one call or two. */
  lemma ReadsLocked(s: Cluster, co: Checkout, listing: seq<Key>) returns (n: nat)
    requires FreeOrOwn(s, co.lockedKey, co.uid)
    ensures var l := ClaimAt(s, co.lockedKey);
      Calls(Alone(s, StartProc(co)), listing, n)
        == Alone(s, StartProc(co).(pc := ReadFinal, mem := NOTHING_HELD.(locked := l, lockedVolume := VolumeFor(s, l))))
    ensures n <= 2
  {
    hide Call, NextCall, Resume, ServePutClaim;
    var a := Alone(s, StartProc(co));
    StartCall(co);
    Answered(a, listing, GetClaim(co.lockedKey));
    ResumedLocked(a.proc, ClaimAt(s, co.lockedKey));
    var b := Call(a, listing);
    assert Calls(b, listing, 0) == b;
    n := 1;
    if co.lockedKey in s.claims {
      var v := b.proc.mem.locked.spec.volumeName;
      ReadingCall(b.proc);
      Answered(b, listing, GetVolume(v));
      ResumedLockedVolume(b.proc, if v.Some? then Find(s.volumes, v.value) else None);
      n := 2;
      assert Calls(b, listing, 1) == Calls(Call(b, listing), listing, 0);
    }
  }

  /** And the pair under the final name. */
  lemma ReadsFinal(s: Cluster, p: Proc, listing: seq<Key>) returns (n: nat)
    requires p.pc == ReadFinal && p.mem.claim == NEW_CLAIM && p.mem.volume == None
    requires FreeOrOwn(s, p.checkout.claimKey, p.checkout.uid)
    ensures var f := ClaimAt(s, p.checkout.claimKey);
      Calls(Alone(s, p), listing, n) == Alone(s, AfterRead(p.(mem := p.mem.(claim := f, volume := VolumeFor(s, f)))))
    ensures n <= 2
  {
    hide Call, NextCall, Resume, BeginPersist, ServePutClaim;
    var a, k := Alone(s, p), p.checkout.claimKey;
    ReadingCall(p);
    Answered(a, listing, GetClaim(k));
    ResumedFinal(p, ClaimAt(s, k));
    var b := Call(a, listing);
    assert Calls(b, listing, 0) == b;
    n := 1;
    if k in s.claims {
      var v := b.proc.mem.claim.spec.volumeName;
      ReadingCall(b.proc);
      Answered(b, listing, GetVolume(v));
      ResumedFinalVolume(b.proc, if v.Some? then Find(s.volumes, v.value) else None);
      AfterReadAnywhere(p.(mem := p.mem.(claim := s.claims[k], volume := VolumeFor(s, s.claims[k]))), ReadFinalVolume);
      n := 2;
      assert Calls(b, listing, 1) == Calls(Call(b, listing), listing, 0);
    }
  }

  lemma AfterReadAnywhere(p: Proc, pc: Pc)
    ensures AfterRead(p.(pc := pc)) == AfterRead(p)
  {
    hide Configured;
  }

  lemma ReadsAll(s: Cluster, co: Checkout, listing: seq<Key>) returns (n: nat)
    requires FreeOrOwn(s, co.lockedKey, co.uid) && FreeOrOwn(s, co.claimKey, co.uid)
    ensures Calls(Alone(s, StartProc(co)), listing, n) == Alone(s, AfterRead(StartProc(co).(mem := HeldAt(s, co))))
    ensures n <= 4
  {
    hide Calls, AfterRead, VolumeFor, FreeOrOwn;
    var i := ReadsLocked(s, co, listing);
    var p := Calls(Alone(s, StartProc(co)), listing, i).proc;
    var j := ReadsFinal(s, p, listing);
    CallsSum(Alone(s, StartProc(co)), listing, i, j);
    n := i + j;
    AfterReadAnywhere(StartProc(co).(mem := HeldAt(s, co)), ReadFinal);
  }

  lemma StartCall(co: Checkout)
    ensures NextCall(StartProc(co)) == Some(GetClaim(co.lockedKey))
  {
  }

  lemma ReadingCall(p: Proc)
    ensures p.pc == ReadLockedVolume ==> NextCall(p) == Some(GetVolume(p.mem.locked.spec.volumeName))
    ensures p.pc == ReadFinal ==> NextCall(p) == Some(GetClaim(p.checkout.claimKey))
    ensures p.pc == ReadFinalVolume ==> NextCall(p) == Some(GetVolume(p.mem.claim.spec.volumeName))
  {
  }

  // -------------------------------------------------------------------- writing

  predicate ClaimAccepted(s: Cluster, k: Key, o: Claim) {
    if o.uid == 0 then k !in s.claims
    else k in s.claims && s.claims[k].uid == o.uid && s.claims[k].rv == o.rv && ClaimUpdateValid(s.claims[k], o)
  }

  predicate VolumeAccepted(s: Cluster, v: NamedVolume) {
    if v.volume.uid == 0 then v.name !in s.volumes
    else
      && v.name in s.volumes
      && s.volumes[v.name].uid == v.volume.uid && s.volumes[v.name].rv == v.volume.rv
  }

  /** The configured pairs are complete and apart, and every write of them will be
      accepted. */
  predicate Writable(s: Cluster, co: Checkout, m: Held) {
    && m.claim.phase != Bound && m.lockedVolume.Some? && m.volume.Some?
    && m.lockedVolume.value.name != m.volume.value.name && co.lockedKey != co.claimKey
    && ClaimAccepted(s, co.lockedKey, m.locked) && VolumeAccepted(s, m.lockedVolume.value)
    && ClaimAccepted(s, co.claimKey, m.claim) && VolumeAccepted(s, m.volume.value)
  }

  /** Stored as it was sent. */
  predicate SameContent(a: Volume, b: Volume) {
    a.labels == b.labels && a.annotations == b.annotations && a.spec == b.spec
  }

  /** Since s the claim at k was stored as it was sent. */
  predicate ClaimWritten(s: Cluster, t: Cluster, k: Key, o: Claim) {
    && k in t.claims && t.claims[k].controller == o.controller && t.claims[k].spec == o.spec
    && (o.uid != 0 ==> t.claims[k].uid == o.uid && k in s.claims && t.claims[k].phase == s.claims[k].phase)
    && (o.uid == 0 ==> t.claims[k].phase == Pending)
  }

  /** And nothing else happened to the claims. */
  ghost predicate ClaimStored(s: Cluster, t: Cluster, k: Key, o: Claim) {
    && ClaimWritten(s, t, k, o)
    && (forall k' | k' != k :: k' in t.claims <==> k' in s.claims)
    && (forall k' | k' != k && k' in s.claims :: t.claims[k'] == s.claims[k'])
  }

  ghost predicate VolumeStored(s: Cluster, t: Cluster, v: NamedVolume) {
    && v.name in t.volumes && t.volumes == s.volumes[v.name := t.volumes[v.name]]
    && SameContent(t.volumes[v.name], v.volume)
  }

  lemma PutClaimStored(s: Cluster, k: Key, o: Claim)
    requires ClaimAccepted(s, k, o)
    ensures var (t, r) := ServePutClaim(s, k, o);
      ClaimStored(s, t, k, o) && t.volumes == s.volumes && r == StoredClaim(ClaimAt(t, k))
  {
  }

  lemma PutVolumeStored(s: Cluster, v: NamedVolume)
    requires VolumeAccepted(s, v)
    ensures var (t, r) := ServePutVolume(s, v.name, v.volume);
      VolumeStored(s, t, v) && t.claims == s.claims && r.StoredVolume?
  {
  }

  /** The locked volume refers to the claim that was stored for it. */
  function Repointed(t: Cluster, k: Key, v: Option<NamedVolume>): Option<NamedVolume> {
    if v.Some? then Some(Synced(v.value, ClaimAt(t, k).uid)) else None
  }

  ghost predicate PairWritten(s: Cluster, t: Cluster, k: Key, o: Claim, v: Option<NamedVolume>) {
    && ClaimWritten(s, t, k, o)
    && var n := Repointed(t, k, v);
    n.Some? && n.value.name in t.volumes && SameContent(t.volumes[n.value.name], n.value.volume)
  }

  /** All four objects are stored as they were configured, each volume referring to the
      claim stored for it. */
  ghost predicate Written(s: Cluster, t: Cluster, co: Checkout, m: Held) {
    && PairWritten(s, t, co.lockedKey, OwnedBy(co, m.locked), m.lockedVolume)
    && PairWritten(s, t, co.claimKey, OwnedBy(co, m.claim), m.volume)
  }

  /** How far writing m has come, s being the cluster at its start. */
  ghost predicate Writing(s: Cluster, co: Checkout, m: Held, a: Alone) {
    var (t, h, l, f) := (a.cluster, a.proc.mem, OwnedBy(co, m.locked), OwnedBy(co, m.claim));
    var v := Repointed(t, co.lockedKey, m.lockedVolume);
    && a.proc.checkout == co
    && match a.proc.pc
       case WriteLocked => t == s && h == m.(locked := l)
       case WriteLockedVolume =>
         && ClaimStored(s, t, co.lockedKey, l) && t.volumes == s.volumes
         && h.lockedVolume == v && h.claim == m.claim && h.volume == m.volume
       case WriteFinal =>
         && ClaimStored(s, t, co.lockedKey, l) && v.Some? && VolumeStored(s, t, v.value)
         && h.claim == f && h.volume == m.volume
       case WriteFinalVolume =>
         && PairWritten(s, t, co.lockedKey, l, m.lockedVolume) && v.Some? && VolumeStored(s, t, v.value)
         && ClaimWritten(s, t, co.claimKey, f) && h.volume == Repointed(t, co.claimKey, m.volume)
       case Finished => Written(s, t, co, m)
       case _ => false
  }

  lemma WritesLocked(s: Cluster, co: Checkout, m: Held, a: Alone, listing: seq<Key>)
    requires Writable(s, co, m) && Writing(s, co, m, a) && a.proc.pc == WriteLocked
    ensures Writing(s, co, m, Call(a, listing)) && Call(a, listing).proc.pc == WriteLockedVolume
  {
    hide Call, ServePutClaim, ClaimStored, Synced, AfterScan, AfterRead, CrossReferenced, ResumeScan;
    Answered(a, listing, PutClaim(co.lockedKey, a.proc.mem.locked));
    PutClaimStored(s, co.lockedKey, a.proc.mem.locked);
  }

  lemma WritesLockedVolume(s: Cluster, co: Checkout, m: Held, a: Alone, listing: seq<Key>)
    requires Writable(s, co, m) && Writing(s, co, m, a) && a.proc.pc == WriteLockedVolume
    ensures Writing(s, co, m, Call(a, listing)) && Call(a, listing).proc.pc == WriteFinal
  {
    hide Call, ServePutVolume, SameContent, AfterScan, AfterRead, CrossReferenced, ClaimAccepted, ResumeScan,
      ServePutClaim;
    var v := a.proc.mem.lockedVolume.value;
    Answered(a, listing, PutVolume(v.name, v.volume));
    PutVolumeStored(a.cluster, v);
  }

  lemma WritesFinal(s: Cluster, co: Checkout, m: Held, a: Alone, listing: seq<Key>)
    requires Writable(s, co, m) && Writing(s, co, m, a) && a.proc.pc == WriteFinal
    ensures Writing(s, co, m, Call(a, listing)) && Call(a, listing).proc.pc == WriteFinalVolume
  {
    hide Call, ServePutClaim, SameContent, AfterScan, AfterRead, CrossReferenced, VolumeAccepted, Synced,
      ResumeScan, IsListing, NextScanCall, ServePutVolume, ServeDropClaim, ServeDropVolume, ServePutJob,
      ServeDropJob, Written, StartScan;
    Answered(a, listing, PutClaim(co.claimKey, a.proc.mem.claim));
    PutClaimStored(a.cluster, co.claimKey, a.proc.mem.claim);
  }

  lemma WritesFinalVolume(s: Cluster, co: Checkout, m: Held, a: Alone, listing: seq<Key>)
    requires Writable(s, co, m) && Writing(s, co, m, a) && a.proc.pc == WriteFinalVolume
    ensures Writing(s, co, m, Call(a, listing)) && Call(a, listing).proc.pc == Finished
  {
    hide Call, ServePutVolume, SameContent, AfterScan, AfterRead, CrossReferenced, ClaimAccepted, ResumeScan,
      ServePutClaim;
    var v := a.proc.mem.volume.value;
    Answered(a, listing, PutVolume(v.name, v.volume));
    PutVolumeStored(a.cluster, v);
  }

  /** What was read calls for writes, and they will all be accepted. */
  lemma WritesAll(s: Cluster, p: Proc, listing: seq<Key>)
    requires Writable(s, p.checkout, Configured(p.checkout, p.mem))
    ensures var b := Calls(Alone(s, BeginPersist(p)), listing, 4);
      b.proc.pc == Finished && Written(s, b.cluster, p.checkout, Configured(p.checkout, p.mem))
  {
    hide Call, Configured, Writable, ClaimStored, VolumeStored, PairWritten, SameContent;
    var co, m, a := p.checkout, Configured(p.checkout, p.mem), Alone(s, BeginPersist(p));
    NotBound(s, co, m);
    assert a.proc.pc == WriteLocked && Writing(s, co, m, a);
    WritesLocked(s, co, m, a, listing);
    var a1 := Call(a, listing);
    WritesLockedVolume(s, co, m, a1, listing);
    var a2 := Call(a1, listing);
    WritesFinal(s, co, m, a2, listing);
    var a3 := Call(a2, listing);
    WritesFinalVolume(s, co, m, a3, listing);
    assert Calls(a3, listing, 1) == Calls(Call(a3, listing), listing, 0) == Call(a3, listing);
    assert Calls(a2, listing, 2) == Calls(a3, listing, 1);
    assert Calls(a1, listing, 3) == Calls(a2, listing, 2);
  }

  lemma NotBound(s: Cluster, co: Checkout, m: Held)
    requires Writable(s, co, m)
    ensures m.claim.phase != Bound
  {
  }

  // ------------------------------------------------------------- writing it again

  lemma PutSameClaim(s: Cluster, k: Key)
    requires k in s.claims && s.claims[k].uid != 0
    ensures ServePutClaim(s, k, s.claims[k]) == (s, StoredClaim(s.claims[k]))
  {
  }

  lemma PutSameVolume(s: Cluster, n: VolumeName)
    requires n in s.volumes && s.volumes[n].uid != 0
    ensures ServePutVolume(s, n, s.volumes[n]) == (s, StoredVolume(s.volumes[n]))
  {
  }

  lemma SyncedSame(v: NamedVolume, uid: Uid)
    requires v.volume.spec.claimRef.Some? && v.volume.spec.claimRef.value.uid == uid
    ensures Synced(v, uid) == v
  {
  }

  /** The pair at k is there as it is held, its own and each referring to the other. */
  predicate PairThere(s: Cluster, k: Key, owner: Uid, o: Claim, v: Option<NamedVolume>) {
    && k in s.claims && o == s.claims[k] && o.uid != 0 && o.controller == Some(CheckoutOwner(owner))
    && v.Some? && v.value.name in s.volumes && v.value.volume == s.volumes[v.value.name] && v.value.volume.uid != 0
    && v.value.volume.spec.claimRef.Some? && v.value.volume.spec.claimRef.value.uid == o.uid
  }

  predicate PairsThere(s: Cluster, co: Checkout, h: Held) {
    PairThere(s, co.lockedKey, co.uid, h.locked, h.lockedVolume) && PairThere(s, co.claimKey, co.uid, h.claim, h.volume)
  }

  lemma RewritesLocked(s: Cluster, p: Proc, listing: seq<Key>)
    requires PairsThere(s, p.checkout, p.mem) && p.pc == WriteLocked
    ensures Calls(Alone(s, p), listing, 2) == Alone(s, p.(pc := WriteFinal))
  {
    hide ResumeScan, AfterRead, ServePutClaim;
    var k, v := p.checkout.lockedKey, p.mem.lockedVolume.value;
    PutSameClaim(s, k);
    PutSameVolume(s, v.name);
    SyncedSame(v, p.mem.locked.uid);
    hide Call, ServePutVolume, Synced, AfterScan, CrossReferenced;
    var a := Alone(s, p);
    Answered(a, listing, PutClaim(k, p.mem.locked));
    var b := Call(a, listing);
    assert b == Alone(s, p.(pc := WriteLockedVolume));
    Answered(b, listing, PutVolume(v.name, v.volume));
    assert OwnedBy(p.checkout, p.mem.claim) == p.mem.claim;
    assert Calls(b, listing, 1) == Calls(Call(b, listing), listing, 0);
  }

  lemma RewritesFinal(s: Cluster, p: Proc, listing: seq<Key>)
    requires PairsThere(s, p.checkout, p.mem) && p.pc == WriteFinal
    ensures Calls(Alone(s, p), listing, 2) == Alone(s, p.(pc := Finished))
  {
    hide ResumeScan, AfterRead, ServePutClaim;
    var k, v := p.checkout.claimKey, p.mem.volume.value;
    PutSameClaim(s, k);
    PutSameVolume(s, v.name);
    SyncedSame(v, p.mem.claim.uid);
    hide Call, ServePutVolume, Synced, AfterScan, CrossReferenced;
    var a := Alone(s, p);
    Answered(a, listing, PutClaim(k, p.mem.claim));
    var b := Call(a, listing);
    assert b == Alone(s, p.(pc := WriteFinalVolume));
    Answered(b, listing, PutVolume(v.name, v.volume));
    assert Calls(b, listing, 1) == Calls(Call(b, listing), listing, 0);
  }

  /** What is there as it is configured is written again and stays as it is. */
  lemma RewritesAll(s: Cluster, p: Proc, listing: seq<Key>)
    requires PairsThere(s, p.checkout, p.mem) && p.mem.claim.phase != Bound && Configured(p.checkout, p.mem) == p.mem
    ensures Calls(Alone(s, BeginPersist(p)), listing, 4) == Alone(s, BeginPersist(p).(pc := Finished))
  {
    hide Calls, Configured;
    var q := BeginPersist(p);
    assert OwnedBy(p.checkout, p.mem.locked) == p.mem.locked;
    assert q.pc == WriteLocked && q.mem == p.mem && q.checkout == p.checkout;
    RewritesLocked(s, q, listing);
    RewritesFinal(s, q.(pc := WriteFinal), listing);
    CallsSum(Alone(s, q), listing, 2, 2);
  }

  // ------------------------------------------------------------------- cleaning up

  /** From s to t the claim at k was marked, and the volume if there is one, and nothing
      else happened. */
  ghost predicate OnlyMarked(s: Cluster, t: Cluster, k: Key, v: Option<NamedVolume>) {
    && k in t.claims && t.claims[k].deleting
    && (v.Some? ==> v.value.name in t.volumes && t.volumes[v.value.name].deleting)
    && (forall k' | k' != k && k' in s.claims :: k' in t.claims && t.claims[k'] == s.claims[k'])
    && (forall n :: n in t.volumes <==> n in s.volumes)
    && (forall n | (v.Some? ==> n != v.value.name) && n in s.volumes :: t.volumes[n] == s.volumes[n])
  }

  lemma DropVolumeMarks(s: Cluster, v: NamedVolume)
    requires v.name in s.volumes && s.volumes[v.name].uid == v.volume.uid
    ensures var (t, r) := ServeDropVolume(s, v.name, v.volume.uid);
      && r.Dropped? && t.claims == s.claims && v.name in t.volumes && t.volumes[v.name].deleting
      && t.volumes == s.volumes[v.name := t.volumes[v.name]]
  {
  }

  lemma DropClaimMarks(s: Cluster, k: Key)
    requires k in s.claims
    ensures var (t, r) := ServeDropClaim(s, k, s.claims[k].uid); r.Dropped? && ClaimMarked(s, t, k)
  {
  }

  /** From s to t only the claim at k was marked. */
  predicate ClaimMarked(s: Cluster, t: Cluster, k: Key) {
    && t.volumes == s.volumes && k in t.claims && t.claims[k].deleting
    && t.claims == s.claims[k := t.claims[k]]
  }

  lemma RemovesClaim(b: Alone, listing: seq<Key>)
    requires b.proc.pc == RemoveLocked && b.proc.checkout.lockedKey in b.cluster.claims
    requires b.proc.mem.locked.uid == ClaimAt(b.cluster, b.proc.checkout.lockedKey).uid
    ensures Call(b, listing).proc.pc == Finished
    ensures ClaimMarked(b.cluster, Call(b, listing).cluster, b.proc.checkout.lockedKey)
  {
    hide Call, AfterScan, AfterRead, ServeDropClaim, ServeDropVolume, ResumeScan, ServePutClaim, IsListing,
      NextScanCall, ServePutVolume, ServePutJob, ServeDropJob, ClaimMarked;
    DropClaimMarks(b.cluster, b.proc.checkout.lockedKey);
    Answered(b, listing, DropClaim(b.proc.checkout.lockedKey, b.proc.mem.locked.uid));
  }

  /** Removing the locked pair, once the final claim is bound: one call or two. */
  lemma RemovesAll(s: Cluster, p: Proc, listing: seq<Key>) returns (n: nat)
    requires p.mem.claim.phase == Bound && p.checkout.lockedKey in s.claims
    requires p.mem.locked == s.claims[p.checkout.lockedKey] && p.mem.locked.uid != 0
    requires p.mem.lockedVolume == VolumeFor(s, p.mem.locked)
    ensures n <= 2
    ensures var b := Calls(Alone(s, BeginPersist(p)), listing, n);
      b.proc.pc == Finished && OnlyMarked(s, b.cluster, p.checkout.lockedKey, p.mem.lockedVolume)
  {
    hide Call, AfterScan, AfterRead, ServeDropClaim, ServeDropVolume, ResumeScan, ServePutClaim, IsListing,
      NextScanCall, ServePutVolume, FinalVolume, Synced, LockedVolume, PointedAt, ServePutJob, ServeDropJob,
      StartScan;
    var q := BeginPersist(p);
    var a := Alone(s, q);
    assert q.mem == p.mem && q.checkout == p.checkout;
    if p.mem.lockedVolume.Some? {
      var v := p.mem.lockedVolume.value;
      DropVolumeMarks(s, v);
      Answered(a, listing, DropVolume(v.name, v.volume.uid));
      var b := Call(a, listing);
      assert b.proc == q.(pc := RemoveLocked);
      RemovesClaim(b, listing);
      assert Calls(b, listing, 1) == Calls(Call(b, listing), listing, 0);
      n := 2;
    } else {
      RemovesClaim(a, listing);
      assert Calls(a, listing, 1) == Calls(Call(a, listing), listing, 0);
      n := 1;
    }
  }

  // ----------------------------------------------------------- looking into the pool

  /** The whole scan. */
  lemma {:induction false} ScansAll(s: Cluster, p: Proc, listing: seq<Key>) returns (n: nat, q: Scan)
    requires p.pc == Scanning && (p.scan.pc == Listing || p.scan.pc == Reading) && Referring(s)
    requires Midway(s, p.scan.pool, listing, p.scan)
    requires IsListing(s, p.scan.pool.key.namespace, p.scan.pool.spec.selector, listing)
    ensures Calls(Alone(s, p), listing, n) == Alone(s, AfterScan(p.(scan := q)))
    ensures q.pc == Scanned && q.pool == p.scan.pool && Midway(s, q.pool, listing, q)
    decreases if p.scan.pc == Listing then 1 else 0, CallsLeft(p.scan)
  {
    hide Call, Midway, IsListing, Referring, CallsLeft, ResumeScan, NextScanCall, Serve, NextCall, Resume;
    var pool := p.scan.pool;
    ScanGoesOn(s, pool, listing, p.scan);
    MidwayFacts(s, pool, listing, p.scan);
    ScanCall(s, p, listing);
    var r := Serve(s, NextScanCall(p.scan).value, listing).1;
    q := ResumeScan(p.scan, r);
    MidwayFacts(s, pool, listing, q);
    var b := Alone(s, AfterScan(p.(scan := q)));
    assert Call(Alone(s, p), listing) == b;
    if q.pc == Scanned {
      n := 1;
      assert Calls(b, listing, 0) == b;
    } else {
      var j;
      j, q := ScansAll(s, p.(scan := q), listing);
      n := j + 1;
    }
  }

  lemma ScanReads(s: Cluster, q: Scan, req: Request, listing: seq<Key>)
    requires NextScanCall(q) == Some(req)
    requires q.pc == Reading ==> q.cur.pc == LoadJob || q.cur.pc == LoadClaim || q.cur.pc == LoadVolume
    ensures Serve(s, req, listing).0 == s
  {
    hide IsListing, Find, ServePutClaim;
  }

  lemma ScanCall(s: Cluster, p: Proc, listing: seq<Key>)
    requires p.pc == Scanning && NextScanCall(p.scan).Some?
    requires p.scan.pc == Reading ==> p.scan.cur.pc == LoadJob || p.scan.cur.pc == LoadClaim || p.scan.cur.pc == LoadVolume
    ensures var r := Serve(s, NextScanCall(p.scan).value, listing).1;
      Call(Alone(s, p), listing) == Alone(s, AfterScan(p.(scan := ResumeScan(p.scan, r))))
  {
    hide AfterScan, ResumeScan, Call, Resume, NextScanCall, Serve;
    var req := NextScanCall(p.scan).value;
    Answered(Alone(s, p), listing, req);
    ResumedScan(p, Serve(s, req, listing).1);
    ScanReads(s, p.scan, req, listing);
  }

  lemma {:induction false} SomeOldest(rs: seq<Replica>) returns (i: nat)
    requires rs != []
    ensures i < |rs| && Oldest(rs, i)
  {
    var n := |rs| - 1;
    i := n;
    if n > 0 {
      var j := SomeOldest(rs[..n]);
      assert forall k | 0 <= k < n :: rs[..n][k] == rs[k];
      if rs[j].claim.created <= rs[n].claim.created {
        i := j;
      }
    }
  }

  /** If a replica is on offer, an oldest one of those listed is. */
  lemma OldestOffered(s: Cluster, pool: Pool, listing: seq<Key>, q: Scan) returns (i: nat)
    requires Midway(s, pool, listing, q) && q.pc == Scanned && exists r :: Offered(s, pool, r)
    ensures i < |q.available| && Oldest(q.available, i) && Offered(s, pool, q.available[i])
  {
    hide ReplicaAt;
    var r :| Offered(s, pool, r);
    assert Lands(s, pool, listing, r, ToAvailable);
    i := SomeOldest(q.available);
    assert q.available[i] in q.available;
  }

  /** With both names free a reconcile looks into its pool and comes to choose. */
  lemma LooksIntoPool(s: Cluster, co: Checkout, pool: Pool, listing: seq<Key>) returns (n: nat, q: Scan)
    requires co.lockedKey !in s.claims && co.claimKey !in s.claims && Find(s.pools, co.pool) == Some(pool) && Referring(s)
    requires IsListing(s, pool.key.namespace, pool.spec.selector, listing) && exists r :: Offered(s, pool, r)
    ensures Calls(Alone(s, StartProc(co)), listing, n) == Alone(s, StartProc(co).(pc := Choosing, scan := q))
    ensures q.pc == Scanned && q.pool == pool && Midway(s, pool, listing, q)
  {
    hide Call, Calls, Referring, IsListing, Offered, Midway, BeginPersist;
    var a := Alone(s, StartProc(co));
    var i := ReadsAll(s, co, listing);
    var p := StartProc(co).(pc := ReadPool);
    var j;
    j := PoolCall(s, p, pool, listing);
    ScanStarts(s, pool, listing);
    var k;
    k, q := ScansAll(s, p.(pc := Scanning, scan := StartScan(pool)), listing);
    AvailableThere(s, pool, listing, q);
    CallsSum(a, listing, i, j);
    CallsSum(a, listing, i + j, k);
    n := i + j + k;
  }

  lemma PoolCall(s: Cluster, p: Proc, pool: Pool, listing: seq<Key>) returns (n: nat)
    requires p.pc == ReadPool && Find(s.pools, p.checkout.pool) == Some(pool)
    ensures Calls(Alone(s, p), listing, n) == Alone(s, p.(pc := Scanning, scan := StartScan(pool)))
  {
    hide Call, AfterScan, AfterRead, ResumeScan, ServePutClaim;
    n := 1;
    Answered(Alone(s, p), listing, GetPool(p.checkout.pool));
    var b := Call(Alone(s, p), listing);
    assert Calls(b, listing, 0) == b;
  }

  lemma AvailableThere(s: Cluster, pool: Pool, listing: seq<Key>, q: Scan)
    requires Midway(s, pool, listing, q) && q.pc == Scanned && exists r :: Offered(s, pool, r)
    ensures q.available != []
  {
    var i := OldestOffered(s, pool, listing, q);
  }

  // ------------------------------------------------------------- whole reconciles

  /** A reconcile that finds a volume to hand over and may write it all. */
  lemma Finishes(s: Cluster, co: Checkout, listing: seq<Key>)
    requires FreeOrOwn(s, co.lockedKey, co.uid) && FreeOrOwn(s, co.claimKey, co.uid)
    requires HeldAt(s, co).lockedVolume.Some? && Writable(s, co, Configured(co, HeldAt(s, co)))
    ensures var b := Calls(Alone(s, StartProc(co)), listing, 8);
      b.proc.pc == Finished && Written(s, b.cluster, co, Configured(co, HeldAt(s, co)))
  {
    hide Calls, HeldAt, Configured, Writable, Written, FreeOrOwn, BeginPersist;
    var a, p := Alone(s, StartProc(co)), StartProc(co).(mem := HeldAt(s, co));
    var n := ReadsAll(s, co, listing);
    WritesAll(s, p, listing);
    EndsIn(a, listing, n, 4);
  }

  /** A reconcile that finds everything as it would write it. */
  lemma Repeats(s: Cluster, co: Checkout, listing: seq<Key>)
    requires PairsThere(s, co, HeldAt(s, co)) && HeldAt(s, co).claim.phase != Bound
    requires Configured(co, HeldAt(s, co)) == HeldAt(s, co)
    ensures Calls(Alone(s, StartProc(co)), listing, 8).cluster == s
  {
    hide Calls, Configured;
    OwnPairs(s, co);
    hide HeldAt, PairsThere, BeginPersist, FreeOrOwn;
    var a, p := Alone(s, StartProc(co)), StartProc(co).(mem := HeldAt(s, co));
    var n := ReadsAll(s, co, listing);
    RewritesAll(s, p, listing);
    EndsIn(a, listing, n, 4);
  }

  lemma OwnPairs(s: Cluster, co: Checkout)
    requires PairsThere(s, co, HeldAt(s, co))
    ensures FreeOrOwn(s, co.lockedKey, co.uid) && FreeOrOwn(s, co.claimKey, co.uid)
    ensures HeldAt(s, co).lockedVolume.Some?
  {
  }

  /** A reconcile that finds the final claim bound. */
  lemma Cleans(s: Cluster, co: Checkout, listing: seq<Key>)
    requires FreeOrOwn(s, co.lockedKey, co.uid) && FreeOrOwn(s, co.claimKey, co.uid)
    requires HeldAt(s, co).claim.phase == Bound && co.lockedKey in s.claims && s.claims[co.lockedKey].uid != 0
    ensures var b := Calls(Alone(s, StartProc(co)), listing, 8);
      OnlyMarked(s, b.cluster, co.lockedKey, HeldAt(s, co).lockedVolume)
  {
    hide Calls, VolumeFor, FreeOrOwn, BeginPersist, OnlyMarked;
    var a, p := Alone(s, StartProc(co)), StartProc(co).(mem := HeldAt(s, co));
    var n := ReadsAll(s, co, listing);
    var j := RemovesAll(s, p, listing);
    EndsIn(a, listing, n, j);
  }

  lemma EndsIn(a: Alone, listing: seq<Key>, m: nat, n: nat)
    requires m <= 4 && n <= 4 && Calls(Calls(a, listing, m), listing, n).proc.pc == Finished
    ensures Calls(a, listing, 8) == Calls(Calls(a, listing, m), listing, n)
  {
    hide Calls, Call;
    var b := Calls(Calls(a, listing, m), listing, n);
    CallsSum(a, listing, m, n);
    Idling(b, listing, 8 - m - n);
    CallsSum(a, listing, m + n, 8 - m - n);
  }

  /** What was written is what the next reconcile reads, and configuring it changes
      nothing. */
  lemma WrittenHeld(s: Cluster, t: Cluster, co: Checkout, h: Held)
    requires Writable(s, co, Configured(co, h)) && h.lockedVolume.Some? && h.claim.phase != Bound
    requires Written(s, t, co, Configured(co, h)) && Identified(t)
    requires co.claimKey in s.claims ==> s.claims[co.claimKey].phase != Bound
    ensures PairsThere(t, co, HeldAt(t, co)) && HeldAt(t, co).claim.phase != Bound
    ensures Configured(co, HeldAt(t, co)) == HeldAt(t, co)
  {
    hide Configured, Written, WrittenFrom;
    WrittenThere(s, t, co, h);
    hide Writable, PairsThere, Identified, HeldAt;
    ConfigureStable(co, h, HeldAt(t, co));
  }

  lemma WrittenThere(s: Cluster, t: Cluster, co: Checkout, h: Held)
    requires Writable(s, co, Configured(co, h)) && h.lockedVolume.Some? && h.claim.phase != Bound
    requires Written(s, t, co, Configured(co, h)) && Identified(t)
    requires co.claimKey in s.claims ==> s.claims[co.claimKey].phase != Bound
    ensures PairsThere(t, co, HeldAt(t, co)) && HeldAt(t, co).claim.phase != Bound
    ensures WrittenFrom(co, h, HeldAt(t, co))
  {
    hide ClaimAccepted, VolumeAccepted;
  }
}
