/** Small facts about sequences used by several services. */
module Collections {

  predicate Distinct<T(==)>(s: seq<T>)
  {
    forall i, j :: 0 <= i < j < |s| ==> s[i] != s[j]
  }

  /** The elements of a duplicate-free sequence are as many as its length. */
  lemma {:induction false} DistinctElements<T>(s: seq<T>)
    requires Distinct(s)
    ensures |set x | x in s| == |s|
  {
    if s != [] {
      DistinctElements(s[1..]);
      assert (set x | x in s) == (set x | x in s[1..]) + {s[0]};
      assert s[0] !in s[1..];
    }
  }

  /** `s` with every occurrence of `x` removed; for a duplicate-free `s` the others keep their order. */
  function Without<T(==,!new)>(s: seq<T>, x: T): (r: seq<T>)
    ensures x !in r
    ensures forall y :: y != x ==> (y in r <==> y in s)
    ensures Distinct(s) ==> Distinct(r)
    ensures x !in s ==> r == s
    ensures Distinct(s) && x in s ==> exists k :: 0 <= k < |s| && s[k] == x && r == s[..k] + s[k + 1..]
  {
    if s == [] then []
    else
      var rest := Without(s[1..], x);
      if s[0] == x then
        assert Distinct(s) ==> x !in s[1..] && s[..0] + s[1..] == s[1..];
        rest
      else
        ConsKeepsDistinct(s[0], rest);
        ConsKeepsDeletion(s, x, rest);
        [s[0]] + rest
  }

  lemma ConsKeepsDistinct<T>(y: T, rest: seq<T>)
    ensures Distinct(rest) && y !in rest ==> Distinct([y] + rest)
  {
    if Distinct(rest) && y !in rest {
      forall i, j | 0 <= i < j < |[y] + rest|
        ensures ([y] + rest)[i] != ([y] + rest)[j]
      {
        if i == 0 { assert ([y] + rest)[j] == rest[j - 1]; }
      }
    }
  }

  /** Removing `x` behind a kept head: the head stays in front of the shortened tail. */
  lemma ConsKeepsDeletion<T>(s: seq<T>, x: T, rest: seq<T>)
    requires s != [] && s[0] != x
    requires Distinct(s[1..]) && x in s[1..] ==>
      exists k :: 0 <= k < |s[1..]| && s[1..][k] == x && rest == s[1..][..k] + s[1..][k + 1..]
    ensures Distinct(s) && x in s ==> exists k :: 0 <= k < |s| && s[k] == x && [s[0]] + rest == s[..k] + s[k + 1..]
  {
    if Distinct(s) && x in s {
      var t := s[1..];
      assert Distinct(t) by {
        forall i, j | 0 <= i < j < |t| ensures t[i] != t[j] {
          assert t[i] == s[i + 1] && t[j] == s[j + 1];
        }
      }
      assert x in t by {
        var i :| 0 <= i < |s| && s[i] == x;
        assert i != 0 && t[i - 1] == x;
      }
      var k :| 0 <= k < |t| && t[k] == x && rest == t[..k] + t[k + 1..];
      assert s[..k + 1] == [s[0]] + t[..k];
      assert s[k + 2..] == t[k + 1..];
      assert s[k + 1] == x && [s[0]] + rest == s[..k + 1] + s[k + 2..];
    }
  }
}
