/** Status conditions: when a condition last changed, over a history of reconciles. */
module Conditions {

  /** Seconds on the controller's clock; 0 is the zero time. */
  type Time = nat

  datatype Condition = Condition(status: string, reason: string, message: string, since: Time)

  const TRUE := "True"
  const FALSE := "False"
  const UNKNOWN := "Unknown"
  const NO_CONDITION := Condition("", "", "", 0)

  datatype Typed<T> = Typed(kind: T, condition: Condition)

  /** An empty status reads as unknown. */
  function Named(c: Condition): Condition {
    if c.status == "" then c.(status := UNKNOWN) else c
  }

  predicate SameReport(a: Condition, b: Condition) {
    a.status == b.status && a.reason == b.reason && a.message == b.message
  }

  function UpdateCondition(prev: Condition, next: Condition, now: Time): Condition {
    var n := Named(next);
    if SameReport(n, prev) then prev
    else if n.since == 0 then n.(since := now)
    else n
  }

  /** The first entry of the kind, or the zero condition. */
  function Lookup<T(==)>(cs: seq<Typed<T>>, kind: T): Condition {
    if cs == [] then NO_CONDITION
    else if cs[0].kind == kind then cs[0].condition
    else Lookup(cs[1..], kind)
  }

  function Reported<T(==)>(conds: map<T, Condition>, kind: T): Condition {
    if kind in conds then conds[kind] else NO_CONDITION
  }

  /** The entries one reconcile writes: one for each kind, in the order of `kinds`. */
  function Refreshed<T(==)>(kinds: seq<T>, prev: seq<Typed<T>>, conds: map<T, Condition>, now: T -> Time): seq<Typed<T>> {
    seq(|kinds|, i requires 0 <= i < |kinds| =>
      Typed(kinds[i], UpdateCondition(Lookup(prev, kinds[i]), Reported(conds, kinds[i]), now(kinds[i]))))
  }

  // ------------------------------------------------------------------- history

  /** What one successfully persisted reconcile reported, and its clock. */
  datatype Report<!T> = Report(conds: map<T, Condition>, now: T -> Time)

  function StatusAfter<T(==)>(kinds: seq<T>, reports: seq<Report<T>>): seq<Typed<T>> {
    if reports == [] then []
    else
      var last := reports[|reports| - 1];
      Refreshed(kinds, StatusAfter(kinds, reports[..|reports| - 1]), last.conds, last.now)
  }

  predicate DistinctKinds<T(==)>(kinds: seq<T>) {
    forall i, j | 0 <= i < j < |kinds| :: kinds[i] != kinds[j]
  }

  /** The condition found for a kind is the one written for it. */
  lemma {:induction false} LookupAt<T>(cs: seq<Typed<T>>, i: nat)
    requires i < |cs| && forall j | 0 <= j < |cs| && cs[j].kind == cs[i].kind :: j == i
    ensures Lookup(cs, cs[i].kind) == cs[i].condition
  {
    if i > 0 {
      LookupAt(cs[1..], i - 1);
    }
  }

  lemma LookupRefreshed<T>(kinds: seq<T>, prev: seq<Typed<T>>, conds: map<T, Condition>, now: T -> Time, kind: T)
    requires DistinctKinds(kinds) && kind in kinds
    ensures Lookup(Refreshed(kinds, prev, conds, now), kind)
         == UpdateCondition(Lookup(prev, kind), Reported(conds, kind), now(kind))
  {
    var i :| 0 <= i < |kinds| && kinds[i] == kind;
    LookupAt(Refreshed(kinds, prev, conds, now), i);
  }

  /** Reconcile i reported for this kind the status, the reason and the message that
      the last one reported. */
  predicate Agrees<T(==)>(reports: seq<Report<T>>, kind: T, i: nat)
    requires i < |reports|
  {
    var (a, b) := (Reported(reports[i].conds, kind), Reported(reports[|reports| - 1].conds, kind));
    && (a.status == b.status || (a.status in {"", UNKNOWN} && b.status in {"", UNKNOWN}))
    && a.reason == b.reason && a.message == b.message
  }

  /** The longest run of agreeing reconciles up to the last one starts at k. */
  ghost predicate RunStartsAt<T>(reports: seq<Report<T>>, kind: T, k: nat) {
    && k < |reports|
    && (forall i | k <= i < |reports| :: Agrees(reports, kind, i))
    && (k > 0 ==> !Agrees(reports, kind, k - 1))
  }

  /** No reconcile reports a transition time of its own: the controller never
      fills one in. */
  ghost predicate Untimed<T>(reports: seq<Report<T>>, kind: T) {
    forall i | 0 <= i < |reports| :: Reported(reports[i].conds, kind).since == 0
  }

  /** A run that goes on starts where it started. */
  lemma RunGoesOn<T>(reports: seq<Report<T>>, kind: T, k: nat)
    requires |reports| > 1 && RunStartsAt(reports[..|reports| - 1], kind, k) && Agrees(reports, kind, |reports| - 2)
    ensures RunStartsAt(reports, kind, k)
  {
    var before := reports[..|reports| - 1];
    forall i | k <= i < |reports| ensures Agrees(reports, kind, i) {
      assert i < |before| ==> Agrees(before, kind, i);
    }
    if k > 0 {
      assert !Agrees(before, kind, k - 1);
    }
  }

  lemma Updated(prev: Condition, next: Condition, now: Time)
    ensures var c := UpdateCondition(prev, next, now);
      && c.status == (if next.status == "" then UNKNOWN else next.status)
      && c.reason == next.reason && c.message == next.message
      && (next.since == 0 ==>
            c.since == if (c.status, c.reason, c.message) == (prev.status, prev.reason, prev.message) then prev.since else now)
  {
  }

  /** Two reports agree if they make for the same status, reason and message. */
  lemma AgreesIff<T>(reports: seq<Report<T>>, kind: T, i: nat)
    requires i < |reports|
    ensures var (a, b) := (Named(Reported(reports[i].conds, kind)), Named(Reported(reports[|reports| - 1].conds, kind)));
      Agrees(reports, kind, i) <==> (a.status, a.reason, a.message) == (b.status, b.reason, b.message)
  {
  }

  /** Transition times: after any number of persisted reconciles there is one entry
      for each kind, in fixed order.  It has the status (an empty one reading as
      unknown), the reason and the message that the last reconcile reported, and its
      time is the clock at the start of the longest run of such reports that the last
      one ends. */
  lemma {:induction false} TransitionTime<T>(kinds: seq<T>, reports: seq<Report<T>>, kind: T) returns (k: nat)
    requires DistinctKinds(kinds) && kind in kinds && reports != [] && Untimed(reports, kind)
    ensures |StatusAfter(kinds, reports)| == |kinds|
    ensures forall i | 0 <= i < |kinds| :: StatusAfter(kinds, reports)[i].kind == kinds[i]
    ensures RunStartsAt(reports, kind, k)
    ensures var (c, last) := (Lookup(StatusAfter(kinds, reports), kind), reports[|reports| - 1].conds);
      && c.since == reports[k].now(kind)
      && (kind in last ==>
            && c.status == (if last[kind].status == "" then UNKNOWN else last[kind].status)
            && c.reason == last[kind].reason && c.message == last[kind].message)
      && (kind !in last ==> c.status == UNKNOWN && c.reason == "" && c.message == "")
  {
    hide UpdateCondition;
    var n := |reports| - 1;
    var before := reports[..n];
    var last := reports[n];
    LookupRefreshed(kinds, StatusAfter(kinds, before), last.conds, last.now, kind);
    Updated(Lookup(StatusAfter(kinds, before), kind), Reported(last.conds, kind), last.now(kind));
    k := n;
    if n > 0 {
      AgreesIff(reports, kind, n - 1);
      var k' := TransitionTime(kinds, before, kind);
      if Agrees(reports, kind, n - 1) {
        k := k';
        RunGoesOn(reports, kind, k);
      }
    }
  }
}
