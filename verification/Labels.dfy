/** Label maps and label selectors, as the Kubernetes API defines them. */
module Labels {

  type LabelMap = map<string, string>

  datatype Operator = In | NotIn | Exists | DoesNotExist

  datatype Requirement = Requirement(key: string, op: Operator, values: seq<string>)

  datatype Selector = Selector(matchLabels: LabelMap, expressions: seq<Requirement>)

  /** One matchExpressions requirement.  A missing key satisfies NotIn. */
  predicate Satisfies(r: Requirement, labels: LabelMap) {
    match r.op
    case In => r.key in labels && labels[r.key] in r.values
    case NotIn => r.key !in labels || labels[r.key] !in r.values
    case Exists => r.key in labels
    case DoesNotExist => r.key !in labels
  }

  predicate Matches(s: Selector, labels: LabelMap) {
    && (forall k | k in s.matchLabels :: k in labels && labels[k] == s.matchLabels[k])
    && (forall i | 0 <= i < |s.expressions| :: Satisfies(s.expressions[i], labels))
  }

  predicate EmptySelector(s: Selector) {
    |s.matchLabels| + |s.expressions| == 0
  }

  /** Laying `top` over `base`: every key of `top` wins. */
  function Overlay(base: LabelMap, top: LabelMap): LabelMap {
    base + top
  }

  /** Every entry of `from` stands in m with its value. */
  predicate Bears(m: LabelMap, from: LabelMap) {
    forall k | k in from :: k in m && m[k] == from[k]
  }

  /** Laying one matching label map over another gives a matching label map,
      whatever the selector asks for. */
  lemma OverlayMatches(s: Selector, base: LabelMap, top: LabelMap)
    requires Matches(s, base) && Matches(s, top)
    ensures Matches(s, Overlay(base, top))
  {
    forall i | 0 <= i < |s.expressions|
      ensures Satisfies(s.expressions[i], Overlay(base, top))
    {
      assert Satisfies(s.expressions[i], base) && Satisfies(s.expressions[i], top);
    }
  }
}
