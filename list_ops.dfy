/**
 * The two list idioms the tutorial managers share: dropping every entry with
 * a given key (`[x for x in xs if key(x) != k]`) and finding the first entry
 * with a given key (the `for ... if ...: return`/`break` loops).
 */
module ListOps {
  import opened Wrappers

  /** The entries of `s` whose key differs from `k`, in their original order. */
  function Without<T>(s: seq<T>, key: T -> string, k: string): (r: seq<T>)
    ensures forall i :: 0 <= i < |r| ==> r[i] in s && key(r[i]) != k
    ensures forall i :: 0 <= i < |s| && key(s[i]) != k ==> s[i] in r
    ensures |r| <= |s|
  {
    if s == [] then []
    else
      var rest := Without(s[1..], key, k);
      assert forall i :: 1 <= i < |s| ==> s[i] == s[1..][i - 1];
      if key(s[0]) == k then rest else [s[0]] + rest
  }

  /** Filtering a concatenation filters each part: the kept entries keep their order. */
  lemma {:induction false} WithoutConcat<T>(a: seq<T>, b: seq<T>, key: T -> string, k: string)
    ensures Without(a + b, key, k) == Without(a, key, k) + Without(b, key, k)
  {
    if a != [] {
      WithoutConcat(a[1..], b, key, k);
      assert (a + b)[1..] == a[1..] + b;
      assert (a + b)[0] == a[0];
      if key(a[0]) != k {
        calc {
          Without(a + b, key, k);
          [a[0]] + Without(a[1..] + b, key, k);
          [a[0]] + (Without(a[1..], key, k) + Without(b, key, k));
          ([a[0]] + Without(a[1..], key, k)) + Without(b, key, k);
        }
      }
    } else {
      assert a + b == b;
    }
  }

  /** Nothing is dropped when no entry has the key. */
  lemma {:induction false} WithoutNoMatch<T>(s: seq<T>, key: T -> string, k: string)
    requires forall i :: 0 <= i < |s| ==> key(s[i]) != k
    ensures Without(s, key, k) == s
  {
    if s != [] {
      WithoutNoMatch(s[1..], key, k);
      assert s == [s[0]] + s[1..];
    }
  }

  /** Dropping the same key twice drops nothing more. */
  lemma WithoutIdempotent<T>(s: seq<T>, key: T -> string, k: string)
    ensures Without(Without(s, key, k), key, k) == Without(s, key, k)
  {
    var r := Without(s, key, k);
    assert forall i :: 0 <= i < |r| ==> r[i] in r;
    WithoutNoMatch(r, key, k);
  }

  /** The index of the first entry with key `k`, if any. */
  function FirstIndex<T>(s: seq<T>, key: T -> string, k: string): (r: Option<nat>)
    ensures r.None? <==> forall j :: 0 <= j < |s| ==> key(s[j]) != k
    ensures r.Some? ==> r.value < |s| && key(s[r.value]) == k
    ensures r.Some? ==> forall j :: 0 <= j < r.value ==> key(s[j]) != k
  {
    if s == [] then None
    else if key(s[0]) == k then Some(0)
    else
      match FirstIndex(s[1..], key, k)
      case None => None
      case Some(i) => Some(i + 1)
  }

  /** The first entry with key `k`, if any. */
  function First<T>(s: seq<T>, key: T -> string, k: string): (r: Option<T>)
    ensures r.Some? <==> exists j :: 0 <= j < |s| && key(s[j]) == k
    ensures r.Some? ==> r.value in s && key(r.value) == k
  {
    match FirstIndex(s, key, k)
    case None => None
    case Some(i) => Some(s[i])
  }

  /**
   * The `for ... return` lookup: scans for the first entry with key `k`.
   */
  method Find<T>(s: seq<T>, key: T -> string, k: string) returns (r: Option<T>, index: Option<nat>)
    ensures index == FirstIndex(s, key, k)
    ensures r == First(s, key, k)
  {
    var i := 0;
    while i < |s|
      invariant 0 <= i <= |s|
      invariant forall j :: 0 <= j < i ==> key(s[j]) != k
    {
      if key(s[i]) == k {
        FirstIndexIs(s, key, k, i);
        return Some(s[i]), Some(i);
      }
      i := i + 1;
    }
    return None, None;
  }

  /** An index whose entry has the key, with none before it, is the first index. */
  lemma {:induction false} FirstIndexIs<T>(s: seq<T>, key: T -> string, k: string, i: nat)
    requires i < |s| && key(s[i]) == k
    requires forall j :: 0 <= j < i ==> key(s[j]) != k
    ensures FirstIndex(s, key, k) == Some(i)
  {
    if i > 0 {
      FirstIndexIs(s[1..], key, k, i - 1);
    }
  }
}
