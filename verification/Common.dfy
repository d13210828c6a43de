/** Values shared by every component: options, real helpers, upper-casing. */
module Common {

  datatype Option<+T> = None | Some(value: T) {
    function GetOr(default: T): T {
      if Some? then value else default
    }
  }

  datatype Side = Buy | Sell

  /** A number a model field only admits above zero. */
  type Positive = r: real | r > 0.0 witness 1.0

  /** A number a model field only admits at zero or above. */
  type NonNegative = r: real | r >= 0.0 witness 0.0

  function Max(a: real, b: real): real { if a >= b then a else b }

  function Min(a: real, b: real): real { if a <= b then a else b }

  function Abs(a: real): real { if a >= 0.0 then a else -a }

  // ----- products and quotients -----

  function Times(a: real, b: real): real { a * b }

  function Over(a: real, b: real): real
    requires b != 0.0
  {
    a / b
  }

  lemma ProductPositive(a: real, b: real)
    requires a > 0.0 && b > 0.0
    ensures a * b > 0.0
  {
  }

  lemma ProductGrows(k: real, a: real, b: real)
    requires k >= 0.0 && a <= b
    ensures k * a <= k * b && a * k <= b * k && Times(k, a) <= Times(k, b)
  {
  }

  lemma QuotientPositive(a: real, b: real)
    requires a > 0.0 && b > 0.0
    ensures a / b > 0.0 && a / b * b == a
  {
  }

  lemma SelfQuotient(a: real)
    requires a > 0.0
    ensures a / a == 1.0
  {
  }

  // ----- text -----

  function UpperChar(c: char): char {
    if 'a' <= c <= 'z' then ((c as int) - 32) as char else c
  }

  /** `str.upper` on ASCII text. */
  function Upper(s: string): string {
    seq(|s|, i requires 0 <= i < |s| => UpperChar(s[i]))
  }

  lemma UpperIdempotent(s: string)
    ensures Upper(Upper(s)) == Upper(s)
  {
  }
}

/** Python's insertion-ordered dictionary: a sequence of key/value pairs in which the
    first occurrence of a key wins. Overwriting keeps a key's place, a new key goes last. */
module Dictionary {
  import opened Common

  type Dict<V> = seq<(string, V)>

  function Get<V>(d: Dict<V>, k: string): Option<V> {
    if d == [] then None
    else if d[0].0 == k then Some(d[0].1)
    else Get(d[1..], k)
  }

  function Put<V>(d: Dict<V>, k: string, v: V): Dict<V> {
    if d == [] then [(k, v)]
    else if d[0].0 == k then [(k, v)] + d[1..]
    else [d[0]] + Put(d[1..], k, v)
  }

  function Remove<V>(d: Dict<V>, k: string): Dict<V> {
    if d == [] then [] else if d[0].0 == k then d[1..] else [d[0]] + Remove(d[1..], k)
  }

  ghost predicate Distinct<V>(d: Dict<V>) {
    forall i, j :: 0 <= i < j < |d| ==> d[i].0 != d[j].0
  }

  function Sum<V>(d: Dict<V>, f: (string, V) -> real): real {
    if d == [] then 0.0 else f(d[0].0, d[0].1) + Sum(d[1..], f)
  }

  /** The dictionary comprehension `{f(k): v for k, v in d.items()}`. */
  function Rekey<V>(d: Dict<V>, f: string -> string): Dict<V> {
    if d == [] then []
    else Put(Rekey(d[..|d| - 1], f), f(d[|d| - 1].0), d[|d| - 1].1)
  }

  lemma {:induction false} GetPut<V>(d: Dict<V>, k: string, v: V, q: string)
    ensures Get(Put(d, k, v), q) == if q == k then Some(v) else Get(d, q)
  {
    if d != [] && d[0].0 != k {
      GetPut(d[1..], k, v, q);
      assert Put(d, k, v)[1..] == Put(d[1..], k, v);
    } else if d != [] {
      assert Put(d, k, v)[1..] == d[1..];
    }
  }

  /** Overwriting one entry moves a sum by exactly the difference of the two values. */
  lemma {:induction false} SumPut<V>(d: Dict<V>, k: string, v: V, f: (string, V) -> real)
    ensures Sum(Put(d, k, v), f) ==
            Sum(d, f) + f(k, v) - (if Get(d, k).Some? then f(k, Get(d, k).value) else 0.0)
  {
    if d != [] && d[0].0 != k {
      SumPut(d[1..], k, v, f);
      assert Put(d, k, v)[1..] == Put(d[1..], k, v);
    } else if d != [] {
      assert Put(d, k, v)[1..] == d[1..];
    }
  }

  lemma {:induction false} GetIndex<V>(d: Dict<V>, k: string) returns (i: nat)
    requires Get(d, k).Some?
    ensures i < |d| && d[i] == (k, Get(d, k).value)
  {
    if d[0].0 == k {
      i := 0;
    } else {
      i := GetIndex(d[1..], k);
      i := i + 1;
    }
  }

  lemma {:induction false} GetAt<V>(d: Dict<V>, i: nat)
    requires Distinct(d) && i < |d|
    ensures Get(d, d[i].0) == Some(d[i].1)
  {
    if i > 0 {
      assert d[1..][i - 1] == d[i];
      GetAt(d[1..], i - 1);
    }
  }

  lemma {:induction false} GetNone<V>(d: Dict<V>, k: string)
    requires Get(d, k).None?
    ensures forall i :: 0 <= i < |d| ==> d[i].0 != k
  {
    if d != [] {
      GetNone(d[1..], k);
      assert forall i :: 1 <= i < |d| ==> d[i] == d[1..][i - 1];
    }
  }

  /** Every entry of an updated dictionary is the new one or an old one in its old place. */
  lemma {:induction false} PutAt<V>(d: Dict<V>, k: string, v: V)
    ensures |d| <= |Put(d, k, v)|
    ensures Get(d, k).Some? ==> |Put(d, k, v)| == |d|
    ensures Get(d, k).None? ==> Put(d, k, v) == d + [(k, v)]
    ensures forall i :: 0 <= i < |Put(d, k, v)| ==>
              Put(d, k, v)[i] == (k, v) || (i < |d| && Put(d, k, v)[i] == d[i])
    ensures forall i :: 0 <= i < |d| ==> Put(d, k, v)[i].0 == d[i].0
  {
    if d != [] && d[0].0 != k {
      PutAt(d[1..], k, v);
      assert Put(d, k, v)[1..] == Put(d[1..], k, v);
      forall i | 0 < i < |Put(d, k, v)|
        ensures Put(d, k, v)[i] == Put(d[1..], k, v)[i - 1]
        ensures i < |d| ==> d[i] == d[1..][i - 1]
      {
      }
    }
  }

  lemma {:induction false} PutStored<V>(d: Dict<V>, k: string)
    requires Get(d, k).Some?
    ensures Put(d, k, Get(d, k).value) == d
  {
    if d[0].0 != k {
      PutStored(d[1..], k);
      assert d == [d[0]] + d[1..];
    }
  }

  lemma PutDistinct<V>(d: Dict<V>, k: string, v: V)
    requires Distinct(d)
    ensures Distinct(Put(d, k, v))
  {
    PutAt(d, k, v);
    if Get(d, k).None? {
      GetNone(d, k);
    }
  }

  /** Rebuilding a dictionary whose keys the renaming leaves alone gives it back. */
  lemma {:induction false} RekeyFixed<V>(d: Dict<V>, f: string -> string)
    requires Distinct(d)
    requires forall i :: 0 <= i < |d| ==> f(d[i].0) == d[i].0
    ensures Rekey(d, f) == d
  {
    if d != [] {
      var n := |d| - 1;
      RekeyFixed(d[..n], f);
      if Get(d[..n], d[n].0).Some? {
        var i := GetIndex(d[..n], d[n].0);
        assert false;
      }
      PutAt(d[..n], d[n].0, d[n].1);
    }
  }

  lemma {:induction false} RemoveKeeps<V>(d: Dict<V>, k: string, i: nat) returns (j: nat)
    requires i < |Remove(d, k)|
    ensures j < |d| && d[j] == Remove(d, k)[i]
  {
    if d[0].0 == k {
      j := i + 1;
    } else if i == 0 {
      j := 0;
    } else {
      j := RemoveKeeps(d[1..], k, i - 1);
      j := j + 1;
    }
  }

  /** Removing a key leaves the other entries, each still unique, and not that key. */
  lemma {:induction false} RemoveAt<V>(d: Dict<V>, k: string)
    requires Distinct(d)
    ensures Distinct(Remove(d, k)) && |Remove(d, k)| <= |d|
    ensures forall i :: 0 <= i < |Remove(d, k)| ==> Remove(d, k)[i].0 != k
  {
    if d != [] {
      RemoveAt(d[1..], k);
      if d[0].0 == k {
        assert forall i :: 0 <= i < |d[1..]| ==> d[1..][i] == d[i + 1];
      } else {
        var rest := Remove(d[1..], k);
        assert Remove(d, k)[1..] == rest;
        forall j | 0 <= j < |rest|
          ensures rest[j].0 != d[0].0
        {
          var m := RemoveKeeps(d[1..], k, j);
          assert d[m + 1] == rest[j];
        }
        assert forall j :: 1 <= j < |Remove(d, k)| ==> Remove(d, k)[j] == rest[j - 1];
      }
    }
  }
}
