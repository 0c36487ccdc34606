/** The list operations the components share: `filter(y => y !== x)` and the
    duplicate-free property of a colour list. */
module Lists {

  predicate NoDuplicates(s: seq<string>) {
    forall i, j :: 0 <= i < j < |s| ==> s[i] != s[j]
  }

  /** `s.filter(y => y !== x)`: every element of `s` except `x`, in order. */
  function Without(s: seq<string>, x: string): (r: seq<string>)
    ensures forall y :: y in r <==> y in s && y != x
    ensures |r| <= |s|
  {
    if s == [] then []
    else if s[0] == x then Without(s[1..], x)
    else [s[0]] + Without(s[1..], x)
  }

  /** Filtering out an element that is not there changes nothing. */
  lemma {:induction false} WithoutAbsent(s: seq<string>, x: string)
    requires x !in s
    ensures Without(s, x) == s
  {
    if s != [] {
      WithoutAbsent(s[1..], x);
    }
  }

  /** Filtering out the element just appended gives back the original list. */
  lemma {:induction false} WithoutAppended(s: seq<string>, x: string)
    requires x !in s
    ensures Without(s + [x], x) == s
  {
    if s == [] {
      assert [x][1..] == [];
    } else {
      assert (s + [x])[1..] == s[1..] + [x];
      WithoutAppended(s[1..], x);
    }
  }

  /** The filter removes exactly the occurrences of `x`. */
  lemma {:induction false} WithoutMultiset(s: seq<string>, x: string)
    ensures multiset(Without(s, x)) == multiset(s)[x := 0]
  {
    if s != [] {
      WithoutMultiset(s[1..], x);
      assert s == [s[0]] + s[1..];
    }
  }

  /** In a duplicate-free list the filter drops the one position holding `x`
      and keeps the others in their original order. */
  lemma {:induction false} WithoutAt(s: seq<string>, i: nat, x: string)
    requires NoDuplicates(s) && i < |s| && s[i] == x
    ensures Without(s, x) == s[..i] + s[i + 1..]
  {
    if i == 0 {
      WithoutAbsent(s[1..], x);
    } else {
      assert NoDuplicates(s[1..]);
      WithoutAt(s[1..], i - 1, x);
      assert s[1..][..i - 1] == s[1..i];
      assert s[1..][i..] == s[i + 1..];
      assert s[..i] == [s[0]] + s[1..i];
    }
  }

  /** Filtering keeps a list duplicate-free. */
  lemma {:induction false} WithoutNoDuplicates(s: seq<string>, x: string)
    requires NoDuplicates(s)
    ensures NoDuplicates(Without(s, x))
  {
    if s != [] {
      assert NoDuplicates(s[1..]);
      WithoutNoDuplicates(s[1..], x);
      if s[0] != x {
        assert s[0] !in s[1..];
        assert s[0] !in Without(s[1..], x);
      }
    }
  }

  /** Appending a fresh element keeps a list duplicate-free. */
  lemma AppendNoDuplicates(s: seq<string>, x: string)
    requires NoDuplicates(s) && x !in s
    ensures NoDuplicates(s + [x])
  {
    forall i, j | 0 <= i < j < |s + [x]|
      ensures (s + [x])[i] != (s + [x])[j]
    {
      if j == |s| {
        assert s[i] in s;
      }
    }
  }
}
