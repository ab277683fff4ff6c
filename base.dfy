/** Values and string helpers shared by both compilers' models. */
module Base {

  /** A result that may be absent: `None` stands for a run that throws (C#) or has undefined
      behaviour (C) before it produces its result. */
  datatype Option<T> = None | Some(value: T)

  /** `String.StartsWith`, as a character-by-character comparison. */
  predicate StartsWith(s: string, prefix: string)
  {
    |prefix| <= |s| && s[..|prefix|] == prefix
  }

  /** `String.EndsWith`, as a character-by-character comparison. */
  predicate EndsWith(s: string, suffix: string)
  {
    |suffix| <= |s| && s[|s| - |suffix|..] == suffix
  }

  /** The strings of `ss` written one after the other. */
  function Concat(ss: seq<string>): string
  {
    if ss == [] then "" else ss[0] + Concat(ss[1..])
  }

  lemma {:induction false} ConcatAppend(a: seq<string>, b: seq<string>)
    ensures Concat(a + b) == Concat(a) + Concat(b)
  {
    if a == [] {
      assert a + b == b;
    } else {
      assert (a + b)[1..] == a[1..] + b;
      ConcatAppend(a[1..], b);
    }
  }

  /** Index of the first element of `t` equal to `v`. */
  function FirstIndex(t: seq<string>, v: string): (k: nat)
    requires v in t
    ensures k < |t| && t[k] == v
    ensures forall m :: 0 <= m < k ==> t[m] != v
  {
    if t[0] == v then 0 else 1 + FirstIndex(t[1..], v)
  }

  /** `List<string>.Remove(v)`: deletes the FIRST element equal to `v`, wherever it is, and
      leaves the list alone when there is none. */
  function RemoveFirst(t: seq<string>, v: string): (r: seq<string>)
    ensures v !in t ==> r == t
    ensures v in t ==> |r| == |t| - 1
    ensures forall x :: x in r ==> x in t
  {
    if t == [] then []
    else if t[0] == v then t[1..]
    else
      var rest := RemoveFirst(t[1..], v);
      assert v in t ==> v in t[1..];
      [t[0]] + rest
  }

  /** What is removed is exactly the element at the first index holding `v`; everything else
      stays, in order. */
  lemma {:induction false} RemoveFirstAt(t: seq<string>, v: string)
    requires v in t
    ensures RemoveFirst(t, v) == t[..FirstIndex(t, v)] + t[FirstIndex(t, v) + 1..]
  {
    if t[0] != v {
      assert v in t[1..];
      RemoveFirstAt(t[1..], v);
      var k := FirstIndex(t[1..], v);
      assert FirstIndex(t, v) == k + 1;
      assert t[..k + 1] == [t[0]] + t[1..][..k];
      assert t[k + 2..] == t[1..][k + 1..];
    }
  }

  /** `Remove` takes away one copy of `v` and nothing else. */
  lemma RemoveFirstCount(t: seq<string>, v: string)
    requires v in t
    ensures multiset(RemoveFirst(t, v)) + multiset{v} == multiset(t)
  {
    RemoveFirstAt(t, v);
    var k := FirstIndex(t, v);
    assert t == t[..k] + [v] + t[k + 1..];
  }
}
