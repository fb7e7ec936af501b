/** Identifiers, results and the finite-sum arithmetic the other modules share. */
module Common {

  // Host and microVM identifiers are distinct named string types in the source.
  datatype HostID = HostID(name: string)

  datatype VMID = VMID(name: string)

  datatype Option<+T> = None | Some(value: T)

  datatype Result<+T, +E> = Ok(value: T) | Err(error: E)

  ghost predicate NoDup<T>(s: seq<T>) {
    forall i, j :: 0 <= i < j < |s| ==> s[i] != s[j]
  }

  ghost function Elements<T>(s: seq<T>): set<T> {
    set x | x in s
  }

  lemma OneMoreElement<T>(s: seq<T>, i: nat)
    requires i < |s|
    ensures Elements(s[..i + 1]) == Elements(s[..i]) + {s[i]}
  {
    assert s[..i + 1] == s[..i] + [s[i]];
  }

  lemma {:induction false} NoDupSize<T>(s: seq<T>)
    requires NoDup(s)
    ensures |Elements(s)| == |s|
  {
    if s == [] {
    } else {
      var last := |s| - 1;
      NoDupSize(s[..last]);
      OneMoreElement(s, last);
      assert s[..last + 1] == s;
    }
  }

  lemma InFrontOrLast<T>(s: seq<T>, x: T)
    requires s != []
    ensures x in s <==> x in s[..|s| - 1] || x == s[|s| - 1]
  {
    assert s == s[..|s| - 1] + [s[|s| - 1]];
  }

  lemma DisjointSize<T>(a: set<T>, b: set<T>)
    requires a !! b
    ensures |a + b| == |a| + |b|
  {
  }

  lemma PartSize<T>(whole: set<T>, part: set<T>)
    requires part <= whole
    ensures |whole| == |part| + |whole - part|
  {
    assert whole == part + (whole - part);
  }

  lemma SizeWithout<T>(s: set<T>, x: T)
    ensures |s| == |s - {x}| + if x in s then 1 else 0
  {
    if x !in s {
      assert s - {x} == s;
    }
  }

  /** Dropping keys from a map shrinks it by as many. */
  lemma DroppedSize<K, V>(m: map<K, V>, gone: set<K>)
    requires gone <= m.Keys
    ensures |m - gone| == |m| - |gone|
  {
    PartSize(m.Keys, gone);
    assert (m - gone).Keys == m.Keys - gone;
    assert |m - gone| == |(m - gone).Keys| && |m| == |m.Keys|;
  }

  /** The sum of m over the keys ks, in no particular order. */
  ghost function SumOver<K>(ks: set<K>, m: map<K, int>): int
    requires ks <= m.Keys
  {
    if ks == {} then 0
    else
      var k :| k in ks;
      m[k] + SumOver(ks - {k}, m)
  }

  /** Any key may be split off first, so SumOver does not depend on the order chosen. */
  lemma {:induction false} SumOverRemove<K>(ks: set<K>, m: map<K, int>, k: K)
    requires ks <= m.Keys && k in ks
    ensures SumOver(ks, m) == m[k] + SumOver(ks - {k}, m)
  {
    var c :| c in ks && SumOver(ks, m) == m[c] + SumOver(ks - {c}, m);
    if c == k {
    } else {
      SumOverRemove(ks - {c}, m, k);
      SumOverRemove(ks - {k}, m, c);
      assert ks - {c} - {k} == ks - {k} - {c};
    }
  }

  lemma {:induction false} SumOverAgree<K>(ks: set<K>, m: map<K, int>, m': map<K, int>)
    requires ks <= m.Keys && ks <= m'.Keys
    requires forall k :: k in ks ==> m[k] == m'[k]
    ensures SumOver(ks, m) == SumOver(ks, m')
  {
    if ks == {} {
    } else {
      var k :| k in ks;
      SumOverRemove(ks, m, k);
      SumOverRemove(ks, m', k);
      SumOverAgree(ks - {k}, m, m');
    }
  }

  lemma TimesOneMore(a: int, n: int)
    ensures a * (n + 1) == a * n + a
  {
  }

  lemma {:induction false} SumOverBounds<K>(ks: set<K>, m: map<K, int>, lo: int, hi: int)
    requires ks <= m.Keys
    requires forall k :: k in ks ==> lo <= m[k] <= hi
    ensures lo * |ks| <= SumOver(ks, m) <= hi * |ks|
  {
    if ks == {} {
    } else {
      var k :| k in ks;
      SumOverRemove(ks, m, k);
      SumOverBounds(ks - {k}, m, lo, hi);
      assert |ks| == |ks - {k}| + 1;
      TimesOneMore(lo, |ks - {k}|);
      TimesOneMore(hi, |ks - {k}|);
    }
  }

  /** A sum splits over a subset and its complement. */
  lemma {:induction false} SumOverSplit<K>(ks: set<K>, part: set<K>, m: map<K, int>)
    requires part <= ks <= m.Keys
    ensures SumOver(ks, m) == SumOver(part, m) + SumOver(ks - part, m)
  {
    if part == {} {
      assert ks - part == ks;
    } else {
      var k :| k in part;
      SumOverRemove(ks, m, k);
      SumOverRemove(part, m, k);
      SumOverSplit(ks - {k}, part - {k}, m);
      assert ks - {k} - (part - {k}) == ks - part;
    }
  }

  /** A sum of non-negative terms is zero exactly when every term is. */
  lemma {:induction false} SumOverZero<K>(ks: set<K>, m: map<K, int>)
    requires ks <= m.Keys
    requires forall k :: k in ks ==> m[k] >= 0
    ensures SumOver(ks, m) >= 0
    ensures SumOver(ks, m) == 0 <==> forall k :: k in ks ==> m[k] == 0
  {
    if ks == {} {
    } else {
      var k :| k in ks;
      SumOverRemove(ks, m, k);
      SumOverZero(ks - {k}, m);
    }
  }

  lemma KeysShrink<K, V>(m: map<K, V>, k: K)
    ensures k in m ==> |m - {k}| < |m|
    ensures k !in m ==> m - {k} == m
  {
    if k in m {
      assert (m - {k})[k := m[k]] == m;
    }
  }
}
