/** Counting the rows of a table that satisfy a predicate: the SELECT count(*) of the queries. */
module Counting {

  function Count<T>(s: seq<T>, p: T -> bool): nat {
    if |s| == 0 then 0
    else Count(s[..|s| - 1], p) + (if p(s[|s| - 1]) then 1 else 0)
  }

  lemma CountSnoc<T>(s: seq<T>, x: T, p: T -> bool)
    ensures Count(s + [x], p) == Count(s, p) + (if p(x) then 1 else 0)
  {
    assert (s + [x])[..|s|] == s;
  }

  /** The count depends only on which positions are counted. */
  lemma {:induction false} CountAgree<T, U>(s: seq<T>, p: T -> bool, s': seq<U>, p': U -> bool)
    requires |s| == |s'|
    requires forall i :: 0 <= i < |s| ==> p(s[i]) == p'(s'[i])
    ensures Count(s, p) == Count(s', p')
  {
    if |s| > 0 {
      CountAgree(s[..|s| - 1], p, s'[..|s| - 1], p');
    }
  }

  /** Counting fewer positions gives no more. */
  lemma {:induction false} CountMonotone<T, U>(s: seq<T>, p: T -> bool, s': seq<U>, p': U -> bool)
    requires |s| <= |s'|
    requires forall i :: 0 <= i < |s| && p(s[i]) ==> p'(s'[i])
    ensures Count(s, p) <= Count(s', p')
    decreases |s'|
  {
    if |s'| > |s| {
      CountMonotone(s, p, s'[..|s'| - 1], p');
    } else if |s| > 0 {
      CountMonotone(s[..|s| - 1], p, s'[..|s| - 1], p');
    }
  }

  lemma {:induction false} CountConcat<T>(s: seq<T>, t: seq<T>, p: T -> bool)
    ensures Count(s + t, p) == Count(s, p) + Count(t, p)
  {
    if |t| == 0 {
      assert s + t == s;
    } else {
      var m := |t| - 1;
      assert (s + t)[..|s + t| - 1] == s + t[..m];
      CountConcat(s, t[..m], p);
    }
  }

  lemma CountHead<T>(s: seq<T>, p: T -> bool)
    requires |s| > 0
    ensures Count(s, p) == (if p(s[0]) then 1 else 0) + Count(s[1..], p)
  {
    assert s == [s[0]] + s[1..];
    CountConcat([s[0]], s[1..], p);
    assert [s[0]] == [] + [s[0]];
    CountSnoc([], s[0], p);
  }

  lemma {:induction false} CountAll<T>(s: seq<T>, p: T -> bool)
    requires forall x :: x in s ==> p(x)
    ensures Count(s, p) == |s|
  {
    if |s| > 0 {
      CountAll(s[..|s| - 1], p);
    }
  }

  lemma {:induction false} CountNone<T>(s: seq<T>, p: T -> bool)
    requires forall x :: x in s ==> !p(x)
    ensures Count(s, p) == 0
  {
    if |s| > 0 {
      CountNone(s[..|s| - 1], p);
    }
  }

  lemma {:induction false} CountPositive<T>(s: seq<T>, p: T -> bool, i: nat)
    requires i < |s| && p(s[i])
    ensures Count(s, p) > 0
  {
    if i < |s| - 1 {
      CountPositive(s[..|s| - 1], p, i);
    }
  }

  /** Rows appended after a prefix and not counted leave the count alone. */
  lemma CountExtend<T>(s: seq<T>, s': seq<T>, p: T -> bool)
    requires s <= s'
    requires forall i :: |s| <= i < |s'| ==> !p(s'[i])
    ensures Count(s', p) == Count(s, p)
  {
    assert s' == s + s'[|s|..];
    CountConcat(s, s'[|s|..], p);
    CountNone(s'[|s|..], p);
  }

  /** Splitting the counted rows in two. */
  lemma {:induction false} CountSplit<T>(s: seq<T>, p: T -> bool, q: T -> bool, r: T -> bool)
    requires forall x :: x in s ==> (p(x) <==> q(x) || r(x)) && !(q(x) && r(x))
    ensures Count(s, p) == Count(s, q) + Count(s, r)
  {
    if |s| > 0 {
      CountSplit(s[..|s| - 1], p, q, r);
    }
  }
}
