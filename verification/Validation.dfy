/** Admission: what the webhooks accept, and what that guarantees to the pool and
    to the checkout controllers over a whole history of accepted updates. */
module Validation {
  import opened Labels
  import opened Kube
  import opened Replica
  import opened Checkouts

  datatype FieldError =
    | Library(path: string, detail: string)         // reported by the API machinery
    | FieldInvalid(path: string)
    | FieldNotSupported(path: string)

  /** The validators of the API machinery, which are not part of this model:
      label, annotation and selector syntax, and whether a selector parses. */
  datatype Syntax = Syntax(
    labels: LabelMap -> seq<FieldError>,
    annotations: LabelMap -> seq<FieldError>,
    selector: Selector -> seq<FieldError>,
    parses: Selector -> bool)

  function ErrorIf(c: bool, e: FieldError): seq<FieldError> {
    if c then [e] else []
  }

  function ValidateTemplate(lib: Syntax, t: Template, selector: Selector): seq<FieldError> {
    lib.labels(t.labels)
    + lib.annotations(t.annotations)
    + ErrorIf(!EmptySelector(selector) && !Matches(selector, t.labels), FieldInvalid("template.metadata.labels"))
  }

  function ValidateMountJob(j: MountJob): seq<FieldError> {
    ErrorIf(j.spec.restartPolicy != "" && j.spec.restartPolicy != RESTART_POLICY,
            FieldNotSupported("initJob.template.spec.template.spec.restartPolicy"))
    + ErrorIf(j.spec.activeDeadlineSeconds.Some? && j.spec.activeDeadlineSeconds.value > MAX_ACTIVE_DEADLINE_SECONDS,
              FieldInvalid("initJob.template.spec.activeDeadlineSeconds"))
    + ErrorIf(j.spec.backoffLimit.Some? && j.spec.backoffLimit.value > MAX_BACKOFF_LIMIT,
              FieldInvalid("initJob.template.spec.backoffLimit"))
  }

  function ValidatePoolSpec(lib: Syntax, spec: PoolSpec): seq<FieldError> {
    lib.selector(spec.selector)
    + ErrorIf(EmptySelector(spec.selector), FieldInvalid("selector"))
    + (if lib.parses(spec.selector) then ValidateTemplate(lib, spec.template, spec.selector)
       else [FieldInvalid("selector")])
    + (if spec.initJob.Some? then ValidateMountJob(spec.initJob.value) else [])
  }

  function ValidatePoolSpecUpdate(lib: Syntax, new': PoolSpec, old': PoolSpec): seq<FieldError> {
    ValidatePoolSpec(lib, new') + ErrorIf(new'.selector != old'.selector, FieldInvalid("selector"))
  }

  // ----------------------------------------------------------- what is accepted

  predicate JobAcceptable(j: MountJob) {
    && (j.spec.restartPolicy == "" || j.spec.restartPolicy == RESTART_POLICY)
    && (j.spec.activeDeadlineSeconds.Some? ==> j.spec.activeDeadlineSeconds.value <= MAX_ACTIVE_DEADLINE_SECONDS)
    && (j.spec.backoffLimit.Some? ==> j.spec.backoffLimit.value <= MAX_BACKOFF_LIMIT)
  }

  lemma JobAccepted(j: MountJob)
    ensures ValidateMountJob(j) == [] <==> JobAcceptable(j)
  {
  }

  lemma Concatenated<T>(a: seq<T>, b: seq<T>)
    ensures a + b == [] <==> a == [] && b == []
  {
  }

  /** A spec whose template makes claims that its own selector finds, with an init job
      within the limits, and nothing the API machinery finds fault with. */
  predicate SpecAcceptable(lib: Syntax, spec: PoolSpec) {
    && lib.selector(spec.selector) == [] && lib.parses(spec.selector)
    && lib.labels(spec.template.labels) == [] && lib.annotations(spec.template.annotations) == []
    && !EmptySelector(spec.selector) && Matches(spec.selector, spec.template.labels)
    && (spec.initJob.Some? ==> JobAcceptable(spec.initJob.value))
  }

  lemma SpecAccepted(lib: Syntax, spec: PoolSpec)
    ensures ValidatePoolSpec(lib, spec) == [] <==> SpecAcceptable(lib, spec)
  {
    var a, b := lib.selector(spec.selector), ErrorIf(EmptySelector(spec.selector), FieldInvalid("selector"));
    var c := if lib.parses(spec.selector) then ValidateTemplate(lib, spec.template, spec.selector) else [FieldInvalid("selector")];
    var d := if spec.initJob.Some? then ValidateMountJob(spec.initJob.value) else [];
    Concatenated(a, b);
    Concatenated(a + b, c);
    Concatenated(a + b + c, d);
    Concatenated(lib.labels(spec.template.labels), lib.annotations(spec.template.annotations));
    if spec.initJob.Some? {
      JobAccepted(spec.initJob.value);
    }
    hide Matches, ValidateMountJob, JobAcceptable;
  }

  /** An accepted init job runs exactly as asked: the controller's limits, which
      it applies once more, only fill in what was left out. */
  lemma AcceptedJobUntouched(j: MountJob, claimName: string)
    requires ValidateMountJob(j) == []
    ensures var s := ConfiguredJobSpec(j.spec, j.volumeName, claimName);
      && s.restartPolicy == RESTART_POLICY
      && s.backoffLimit == j.spec.backoffLimit
      && s.activeDeadlineSeconds
           == if j.spec.activeDeadlineSeconds.Some? then j.spec.activeDeadlineSeconds else Some(MAX_ACTIVE_DEADLINE_SECONDS)
  {
    hide ValidateMountJob;
    JobAccepted(j);
  }

  // ------------------------------------------------------- a history of updates

  /** A pool created with hist[0] and updated, each time accepted, up to the last. */
  ghost predicate AcceptedHistory(lib: Syntax, hist: seq<PoolSpec>) {
    && hist != []
    && ValidatePoolSpec(lib, hist[0]) == []
    && forall i | 0 < i < |hist| :: ValidatePoolSpecUpdate(lib, hist[i], hist[i - 1]) == []
  }

  lemma UpdateAccepted(lib: Syntax, new': PoolSpec, old': PoolSpec)
    ensures ValidatePoolSpecUpdate(lib, new', old') == [] <==>
      ValidatePoolSpec(lib, new') == [] && new'.selector == old'.selector
  {
    hide ValidatePoolSpec;
    Concatenated(ValidatePoolSpec(lib, new'), ErrorIf(new'.selector != old'.selector, FieldInvalid("selector")));
  }

  lemma {:induction false} SelectorKept(lib: Syntax, hist: seq<PoolSpec>, i: nat)
    requires AcceptedHistory(lib, hist) && i < |hist|
    ensures ValidatePoolSpec(lib, hist[i]) == [] && hist[i].selector == hist[0].selector
  {
    hide ValidatePoolSpec;
    if i > 0 {
      SelectorKept(lib, hist, i - 1);
      assert ValidatePoolSpecUpdate(lib, hist[i], hist[i - 1]) == [];
      UpdateAccepted(lib, hist[i], hist[i - 1]);
    }
  }

  /** The histories that are admitted are exactly those whose specs are each
      acceptable in themselves and all have the selector of the first: updates may
      change anything else, to any acceptable spec, and never the selector. */
  lemma SelectorFixed(lib: Syntax, hist: seq<PoolSpec>)
    ensures AcceptedHistory(lib, hist) <==>
      && hist != []
      && forall i | 0 <= i < |hist| :: SpecAcceptable(lib, hist[i]) && hist[i].selector == hist[0].selector
  {
    hide ValidatePoolSpec, ValidatePoolSpecUpdate, SpecAcceptable;
    forall i | 0 <= i < |hist| ensures ValidatePoolSpec(lib, hist[i]) == [] <==> SpecAcceptable(lib, hist[i]) {
      SpecAccepted(lib, hist[i]);
    }
    forall i | 0 < i < |hist|
      ensures ValidatePoolSpecUpdate(lib, hist[i], hist[i - 1]) == [] <==>
        ValidatePoolSpec(lib, hist[i]) == [] && hist[i].selector == hist[i - 1].selector
    {
      UpdateAccepted(lib, hist[i], hist[i - 1]);
    }
    if AcceptedHistory(lib, hist) {
      forall i | 0 <= i < |hist| ensures SpecAcceptable(lib, hist[i]) && hist[i].selector == hist[0].selector {
        SelectorKept(lib, hist, i);
      }
    }
  }

  /** A replica persisted by one pool under a series of its specs. */
  function PersistedUnder(pool: Pool, r: Replica, specs: seq<PoolSpec>): Replica {
    if specs == [] then r
    else Labelled(pool.(spec := specs[|specs| - 1]), PersistedUnder(pool, r, specs[..|specs| - 1]))
  }

  lemma {:induction false} PersistedMatches(pool: Pool, r: Replica, specs: seq<PoolSpec>, s: Selector)
    requires forall i | 0 <= i < |specs| :: Matches(s, specs[i].template.labels)
    requires specs == [] ==> Matches(s, r.claim.labels)
    requires r.claim.labels == map[] || Matches(s, r.claim.labels)
    ensures Matches(s, PersistedUnder(pool, r, specs).claim.labels)
  {
    if specs != [] {
      var n := |specs| - 1;
      var last := specs[n].template.labels;
      if n == 0 && r.claim.labels == map[] {
        assert Overlay(map[], last) == last;
      } else {
        PersistedMatches(pool, r, specs[..n], s);
        OverlayMatches(s, PersistedUnder(pool, r, specs[..n]).claim.labels, last);
      }
    }
  }

  /** Closure: over any history of accepted updates, a claim the pool created (from
      no labels, under some accepted spec) and persisted any number of times since,
      under whichever of its specs, still matches the selector of every spec of the
      pool: each of its list calls returns it. */
  lemma CreatedStaysListed(lib: Syntax, hist: seq<PoolSpec>, pool: Pool, r: Replica, uses: seq<nat>, now: nat,
                           s: Cluster, keys: seq<Key>)
    requires AcceptedHistory(lib, hist) && now < |hist|
    requires r.claim.labels == map[] && uses != [] && forall i | 0 <= i < |uses| :: uses[i] < |hist|
    requires r.key in s.claims && r.key.namespace == pool.key.namespace
    requires var specs := seq(|uses|, i requires 0 <= i < |uses| => hist[uses[i]]);
      s.claims[r.key].labels == PersistedUnder(pool, r, specs).claim.labels
    requires IsListing(s, pool.key.namespace, hist[now].selector, keys)
    ensures r.key in keys
  {
    hide Matches, AcceptedHistory;
    var specs := seq(|uses|, i requires 0 <= i < |uses| => hist[uses[i]]);
    SelectorFixed(lib, hist);
    PersistedMatches(pool, r, specs, hist[0].selector);
  }

  // ------------------------------------------------- what is not checked for a pool

  /** Persisting a replica makes it count as available exactly if it was, or if it
      has a volume and the template itself sets the phase annotation: admission
      does not look at annotations, so a pool must not set that key. */
  lemma TemplateSetsPhase(pool: Pool, r: Replica)
    ensures Available(Labelled(pool, r)) <==>
      && r.volume.Some?
      && if PHASE_KEY in pool.spec.template.annotations
         then pool.spec.template.annotations[PHASE_KEY] == AVAILABLE
         else Marked(r.claim.annotations)
  {
  }

  // ------------------------------------------------------------------ checkouts

  datatype PoolRef = PoolRef(namespace: string, name: string)

  datatype CheckoutSpec = CheckoutSpec(poolRef: PoolRef, claimName: string, accessModes: seq<AccessMode>)

  /** What a reconcile of the checkout works with: a claim name or a pool's namespace
      that is left out is the checkout's own. */
  function CheckoutFor(uid: Uid, key: Key, spec: CheckoutSpec): Checkout {
    Checkout(
      uid,
      Key(key.namespace, key.name + "-locked"),
      Key(key.namespace, if spec.claimName == "" then key.name else spec.claimName),
      Key(if spec.poolRef.namespace == "" then key.namespace else spec.poolRef.namespace, spec.poolRef.name),
      spec.accessModes)
  }

  /** A checkout's two claims have different names exactly if it does not ask for its
      locked claim's; and no two checkouts have a locked claim of one name. */
  lemma NamesApart(uid: Uid, key: Key, spec: CheckoutSpec, uid': Uid, key': Key, spec': CheckoutSpec)
    ensures CheckoutFor(uid, key, spec).lockedKey != CheckoutFor(uid, key, spec).claimKey
       <==> spec.claimName != key.name + "-locked"
    ensures CheckoutFor(uid, key, spec).lockedKey == CheckoutFor(uid', key', spec').lockedKey <==> key == key'
  {
    if spec.claimName == "" {
      assert |key.name + "-locked"| > |key.name|;
    }
    var (a, b) := (key.name + "-locked", key'.name + "-locked");
    if a == b {
      assert key.name == a[..|a| - 7] && key'.name == b[..|b| - 7];
    }
  }

  /** A checkout as admission sees it: its spec, and the volume name in its status. */
  datatype CheckoutObject = CheckoutObject(spec: CheckoutSpec, volumeName: string)

  function ValidateCheckoutUpdate(new': CheckoutObject, old': CheckoutObject): seq<FieldError> {
    if old'.volumeName != "" then ErrorIf(old'.spec != new'.spec, FieldInvalid("spec")) else []
  }

  /** A checkout over time: every update was accepted. */
  ghost predicate CheckoutHistory(hist: seq<CheckoutObject>) {
    forall i | 0 < i < |hist| :: ValidateCheckoutUpdate(hist[i], hist[i - 1]) == []
  }

  /** Somewhere in between the spec changed while no volume was recorded in the status. */
  ghost predicate ChangedUnselected(hist: seq<CheckoutObject>, i: nat, j: nat) {
    j < |hist| && exists m | i <= m < j :: hist[m].volumeName == "" && hist[m].spec != hist[m + 1].spec
  }

  lemma {:induction false} ChangedOnce(hist: seq<CheckoutObject>, i: nat, j: nat)
    requires CheckoutHistory(hist) && i <= j < |hist| && hist[i].spec != hist[j].spec
    ensures ChangedUnselected(hist, i, j)
    decreases j
  {
    if hist[j - 1].spec != hist[j].spec {
      assert ValidateCheckoutUpdate(hist[j], hist[j - 1]) == [];
      var m := j - 1;
      assert hist[m].spec != hist[m + 1].spec;
    } else {
      ChangedOnce(hist, i, j - 1);
    }
  }

  lemma ChangeAccepted(hist: seq<CheckoutObject>, i: nat)
    requires 0 < i < |hist| && (hist[i - 1].spec != hist[i].spec ==> ChangedUnselected(hist, i - 1, i))
    ensures ValidateCheckoutUpdate(hist[i], hist[i - 1]) == []
  {
  }

  /** The histories that are admitted are exactly those in which a spec that is another
      at a later moment changed, in between, while no volume was recorded in the
      status: until one is, it may become anything, and from then on it stays. */
  lemma SpecChangesUnselected(hist: seq<CheckoutObject>)
    ensures CheckoutHistory(hist) <==>
      forall i: nat, j: nat | i <= j < |hist| && hist[i].spec != hist[j].spec :: ChangedUnselected(hist, i, j)
  {
    hide ChangedUnselected, ValidateCheckoutUpdate;
    if CheckoutHistory(hist) {
      forall i: nat, j: nat | i <= j < |hist| && hist[i].spec != hist[j].spec ensures ChangedUnselected(hist, i, j) {
        ChangedOnce(hist, i, j);
      }
    }
    if forall i: nat, j: nat | i <= j < |hist| && hist[i].spec != hist[j].spec :: ChangedUnselected(hist, i, j) {
      forall i | 0 < i < |hist| ensures ValidateCheckoutUpdate(hist[i], hist[i - 1]) == [] {
        ChangeAccepted(hist, i);
      }
    }
  }
}
