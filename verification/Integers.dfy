/** Integer products and divisions, one law at a time. */
module Integers {

  lemma AtLeastOnce(len: int, k: int)
    requires len > 0 && k >= 1
    ensures len * k >= len
  {
  }

  lemma SplitTimes(a: int, b: int, c: int)
    ensures a * (b + c) == a * b + a * c
  {
  }

  lemma Division(t: int, len: int)
    requires len > 0
    ensures t == len * (t / len) + t % len && 0 <= t % len < len
  {
  }

  /** Less than one more multiple means no more multiples. */
  lemma AtMostMultiples(len: int, q: int, d: int, r: int)
    requires len > 0 && len * d <= len * q + r && r < len
    ensures d <= q
  {
    if d > q {
      AtLeastOnce(len, d - q);
      SplitTimes(len, q, d - q);
    }
  }

  lemma DivisionIs(len: int, c: int, rest: int)
    requires 0 <= rest < len
    ensures (len * c + rest) / len == c && (len * c + rest) % len == rest
  {
    var t := len * c + rest;
    Division(t, len);
    var q, r := t / len, t % len;
    AtMostMultiples(len, c, q, rest - r);
    AtMostMultiples(len, q, c, r - rest);
  }

  lemma StepsInOrder(step: int, i: int, j: int)
    requires step > 0
    ensures step * i < step * j <==> i < j
    ensures step * i == step * j <==> i == j
    ensures step * (i + j) == step * i + step * j && step * (i - j) == step * i - step * j
  {
    if i < j {
      AtLeastOnce(step, j - i);
    } else if i > j {
      AtLeastOnce(step, i - j);
    }
  }
}
