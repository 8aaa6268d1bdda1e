/** The pieces of `pick_action` that do not touch the agent's state: NumPy's arg-max and
    the annealed exploration rate. */
module Selection {

  datatype Option<T> = None | Some(value: T)

  /** `i` is where `np.argmax` lands: a maximal score, and the first one. */
  predicate IsFirstMax(scores: seq<real>, i: nat)
  {
    i < |scores|
    && (forall j :: 0 <= j < |scores| ==> scores[j] <= scores[i])
    && (forall j :: 0 <= j < i ==> scores[j] < scores[i])
  }

  /** `np.argmax`: the index of the first maximal score. */
  function ArgMax(scores: seq<real>): (i: nat)
    requires |scores| > 0
    ensures IsFirstMax(scores, i)
  {
    if |scores| == 1 then 0
    else
      var k := ArgMax(scores[..|scores| - 1]);
      if scores[|scores| - 1] > scores[k] then |scores| - 1 else k
  }

  /** `epsilon_param / (epsilon_param + t)`, or `None` where Python's float division
      raises `ZeroDivisionError`. */
  function AnnealedEpsilon(epsilonParam: real, t: nat): (e: Option<real>)
    ensures e.None? <==> epsilonParam + t as real == 0.0
    ensures e.Some? ==> e.value * (epsilonParam + t as real) == epsilonParam
  {
    if epsilonParam + t as real == 0.0 then None
    else Some(epsilonParam / (epsilonParam + t as real))
  }

  /** For a non-negative parameter the annealed rate is a probability. */
  lemma AnnealedEpsilonInUnitInterval(epsilonParam: real, t: nat)
    requires epsilonParam >= 0.0 && epsilonParam + t as real > 0.0
    ensures AnnealedEpsilon(epsilonParam, t).Some?
    ensures 0.0 <= AnnealedEpsilon(epsilonParam, t).value <= 1.0
  {
    var s := epsilonParam + t as real;
    var e := AnnealedEpsilon(epsilonParam, t).value;
    assert e * s == epsilonParam;
    CancelPositive(0.0, e, s);
    CancelPositive(e, 1.0, s);
  }

  /** For a non-negative parameter the annealed rate never increases with time. */
  lemma AnnealedEpsilonNonIncreasing(epsilonParam: real, t1: nat, t2: nat)
    requires epsilonParam >= 0.0 && epsilonParam + t1 as real > 0.0 && t1 <= t2
    ensures AnnealedEpsilon(epsilonParam, t1).Some? && AnnealedEpsilon(epsilonParam, t2).Some?
    ensures AnnealedEpsilon(epsilonParam, t2).value <= AnnealedEpsilon(epsilonParam, t1).value
  {
    var s1, s2 := epsilonParam + t1 as real, epsilonParam + t2 as real;
    assert s1 <= s2;
    var e1, e2 := AnnealedEpsilon(epsilonParam, t1).value, AnnealedEpsilon(epsilonParam, t2).value;
    AnnealedEpsilonInUnitInterval(epsilonParam, t2);
    QuotientAntitone(epsilonParam, e1, e2, s1, s2);
  }

  /** Of two non-negative quotients of one numerator, the one over the larger
      denominator is the smaller. */
  lemma QuotientAntitone(p: real, e1: real, e2: real, s1: real, s2: real)
    requires 0.0 < s1 <= s2 && e2 >= 0.0
    requires e1 * s1 == p && e2 * s2 == p
    ensures e2 <= e1
  {
    MulMonotone(e2, s1, s2);
    CancelPositive(e2, e1, s1);
  }

  lemma MulMonotone(a: real, b: real, c: real)
    requires a >= 0.0 && b <= c
    ensures a * b <= a * c
  {
    assert a * c - a * b == a * (c - b);
  }

  lemma CancelPositive(a: real, b: real, s: real)
    requires s > 0.0 && a * s <= b * s
    ensures a <= b
  {
    assert (b - a) * s == b * s - a * s;
  }
}
