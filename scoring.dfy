/**
 * Scoring rules of the industry assessment: the total of the recorded
 * answers, the classification of the initial assessment into an industry
 * level, and the percentage reached on a detailed assessment.
 */
module Scoring {

  /** Recorded answers: question index (within the current set) to the chosen option's score. */
  type Answers = map<nat, int>

  /** Some key of a non-empty set; the choice is fixed, so Total is a function. */
  ghost function Pick(s: set<nat>): (k: nat)
    requires s != {}
    ensures k in s
  {
    var k :| k in s; k
  }

  /** The sum of all recorded scores, whatever order they are added in. */
  ghost function Total(a: Answers): int
    decreases a.Keys
  {
    if a == map[] then 0
    else
      var k := Pick(a.Keys);
      a[k] + Total(a - {k})
  }

  /** Any recorded answer can be taken out of the total first. */
  lemma {:induction false} TotalRemove(a: Answers, k: nat)
    requires k in a
    ensures Total(a) == a[k] + Total(a - {k})
    decreases a.Keys
  {
    var j := Pick(a.Keys);
    if j != k {
      assert a - {j} - {k} == a - {k} - {j};
      TotalRemove(a - {j}, k);
      TotalRemove(a - {k}, j);
    }
  }

  /** Upserting an answer replaces its old contribution to the total by the new score. */
  lemma TotalUpsert(a: Answers, k: nat, score: int)
    ensures Total(a[k := score]) == score + Total(a - {k})
  {
    TotalRemove(a[k := score], k);
    assert a[k := score] - {k} == a - {k};
  }

  /** Detailed scores (0, 1 or 2 each) give a total between 0 and two per answer. */
  lemma {:induction false} TotalWithin(a: Answers)
    requires forall k :: k in a ==> 0 <= a[k] <= 2
    ensures 0 <= Total(a) <= 2 * |a|
    decreases a.Keys
  {
    if a != map[] {
      var k := Pick(a.Keys);
      var rest := a - {k};
      TotalWithin(rest);
      assert a.Keys == rest.Keys + {k};
    }
  }

  /** Answers keyed by indices below n number at most n. */
  lemma {:induction false} KeysBelow(a: Answers, n: nat)
    requires forall k :: k in a ==> k < n
    ensures |a| <= n
  {
    if n == 0 {
      assert a.Keys == {};
    } else {
      var rest := a - {n - 1};
      KeysBelow(rest, n - 1);
      assert a.Keys <= rest.Keys + {n - 1};
      assert |a.Keys| <= |rest.Keys + {n - 1}| <= |rest.Keys| + 1;
    }
  }

  /** The running sum of the recorded scores, one answer at a time. */
  method SumScores(a: Answers) returns (total: int)
    ensures total == Total(a)
  {
    total := 0;
    var rest := a;
    while rest != map[]
      invariant total + Total(rest) == Total(a)
      decreases rest.Keys
    {
      var k :| k in rest;
      TotalRemove(rest, k);
      total := total + rest[k];
      rest := rest - {k};
    }
  }

  /**
   * The industry level for a total over count answers: the average is
   * compared against 2.5 and then 3.5, both non-strictly. With no answers
   * the average is not a number, both comparisons fail and the level is 4.
   */
  function Classify(total: int, count: nat): (level: int)
    ensures 2 <= level <= 4
    ensures count > 0 ==> (level == 2 <==> 2 * total <= 5 * count)
    ensures count > 0 ==> (level == 3 <==> 5 * count < 2 * total <= 7 * count)
    ensures count > 0 ==> (level == 4 <==> 7 * count < 2 * total)
    ensures count == 0 ==> level == 4
  {
    if count == 0 then 4
    else
      var average := total as real / count as real;
      AverageAtMost(total, count, 5);
      AverageAtMost(total, count, 7);
      if average <= 2.5 then 2
      else if average <= 3.5 then 3
      else 4
  }

  /** Comparing an average with bound/2 is comparing twice the total with bound times the count. */
  lemma AverageAtMost(total: int, count: nat, bound: int)
    requires count > 0
    ensures total as real / count as real <= bound as real / 2.0 <==> 2 * total <= bound * count
  {
    var c := count as real;
    var average := total as real / c;
    assert average * c == total as real;
    if 2 * total <= bound * count {
      assert average * c <= (bound as real / 2.0) * c;
    } else {
      assert average * c > (bound as real / 2.0) * c;
    }
  }

  /** A higher average (t1/c1 <= t2/c2) never gives a lower level. */
  lemma ClassifyMonotone(t1: int, c1: nat, t2: int, c2: nat)
    requires c1 > 0 && c2 > 0
    requires t1 * c2 <= t2 * c1
    ensures Classify(t1, c1) <= Classify(t2, c2)
  {
    if 2 * t2 <= 5 * c2 {
      assert 2 * t1 * c2 <= 5 * c1 * c2 by {
        assert 2 * t1 * c2 <= 2 * t2 * c1;
        assert 2 * t2 * c1 <= 5 * c2 * c1;
      }
      CancelPositive(2 * t1, 5 * c1, c2);
    } else if 2 * t2 <= 7 * c2 {
      assert 2 * t1 * c2 <= 7 * c1 * c2 by {
        assert 2 * t1 * c2 <= 2 * t2 * c1;
        assert 2 * t2 * c1 <= 7 * c2 * c1;
      }
      CancelPositive(2 * t1, 7 * c1, c2);
    }
  }

  /** x * c <= y * c with c positive gives x <= y. */
  lemma CancelPositive(x: int, y: int, c: int)
    requires c > 0 && x * c <= y * c
    ensures x <= y
  {
  }

  /** The share of maxScore that total reaches, as a percentage. */
  function Percent(total: int, maxScore: nat): (p: real)
    requires maxScore > 0
    ensures p * maxScore as real == 100.0 * total as real
    ensures 0 <= total <= maxScore ==> 0.0 <= p <= 100.0
  {
    var share := total as real / maxScore as real;
    assert share * maxScore as real == total as real;
    assert 0 <= total <= maxScore ==> 0.0 <= share <= 1.0;
    share * 100.0
  }
}
