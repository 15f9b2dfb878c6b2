/** Shared wrappers and sequence helpers. */
module Common {

  datatype Option<+T> = None | Some(value: T)

  datatype Result<+T> = Ok(value: T) | Err(message: string)

  predicate NoDuplicates<T(==)>(s: seq<T>) {
    forall i, j :: 0 <= i < j < |s| ==> s[i] != s[j]
  }

  /** JavaScript's `shift` seen as a function on the remaining queue: the empty queue stays empty. */
  function Tail<T>(s: seq<T>): seq<T> {
    if s == [] then [] else s[1..]
  }

  /** What `shift` takes out of the queue, if anything. */
  function Front<T>(s: seq<T>): seq<T> {
    if s == [] then [] else [s[0]]
  }

  /** `indexOf` followed by `splice(idx, 1)`: drops the first occurrence, if any. */
  function RemoveFirst<T(==)>(s: seq<T>, x: T): seq<T> {
    if s == [] then [] else if s[0] == x then s[1..] else [s[0]] + RemoveFirst(s[1..], x)
  }

  /** The elements of `s` outside `gone`, in order. */
  function Without<T(==)>(s: seq<T>, gone: set<T>): seq<T> {
    if s == [] then []
    else (if s[0] in gone then [] else [s[0]]) + Without(s[1..], gone)
  }

  lemma {:induction false} WithoutConcat<T>(s: seq<T>, t: seq<T>, gone: set<T>)
    ensures Without(s + t, gone) == Without(s, gone) + Without(t, gone)
  {
    if s == [] {
      assert s + t == t;
    } else {
      assert (s + t)[1..] == s[1..] + t;
      WithoutConcat(s[1..], t, gone);
    }
  }

  lemma {:induction false} WithoutTwice<T>(s: seq<T>, g: set<T>, h: set<T>)
    ensures Without(s, g + h) == Without(Without(s, g), h)
  {
    if s != [] {
      WithoutTwice(s[1..], g, h);
      var head := if s[0] in g then [] else [s[0]];
      WithoutConcat(head, Without(s[1..], g), h);
    }
  }

  lemma {:induction false} WithoutNothing<T>(s: seq<T>, gone: set<T>)
    requires forall x :: x in s ==> x !in gone
    ensures Without(s, gone) == s
  {
    if s != [] {
      WithoutNothing(s[1..], gone);
    }
  }

  lemma {:induction false} WithoutMembers<T>(s: seq<T>, gone: set<T>)
    ensures forall x :: x in Without(s, gone) <==> x in s && x !in gone
  {
    if s != [] {
      WithoutMembers(s[1..], gone);
      assert forall x :: x in s <==> x == s[0] || x in s[1..];
    }
  }

  /** In a queue without duplicates, dropping the first occurrence is dropping the element. */
  lemma {:induction false} RemoveFirstFacts<T>(s: seq<T>, x: T)
    requires NoDuplicates(s)
    ensures NoDuplicates(RemoveFirst(s, x))
    ensures forall y :: y in RemoveFirst(s, x) <==> y in s && y != x
    ensures RemoveFirst(s, x) == Without(s, {x})
  {
    if s != [] {
      RemoveFirstFacts(s[1..], x);
      assert forall y :: y in s <==> y == s[0] || y in s[1..];
      if s[0] == x {
        WithoutNothing(s[1..], {x});
      } else {
        var r := RemoveFirst(s[1..], x);
        assert s[0] !in r;
      }
    }
  }

  lemma {:induction false} RemoveFirstMembers<T>(s: seq<T>, x: T)
    ensures forall y :: y in RemoveFirst(s, x) ==> y in s
  {
    if s != [] {
      RemoveFirstMembers(s[1..], x);
      assert forall y :: y in s <==> y == s[0] || y in s[1..];
    }
  }

  /** If a step keeps `p` exactly when `c` holds of it, then `p` holds up to `n` exactly when `c` does. */
  lemma {:induction false} ExactUpTo(p: nat -> bool, c: nat -> bool, n: nat)
    requires p(0) && forall k: nat :: k < n && p(k) ==> (p(k + 1) <==> c(k))
    ensures (forall k: nat :: k <= n ==> p(k)) <==> (forall k: nat :: k < n ==> c(k))
  {
    if n > 0 {
      ExactUpTo(p, c, n - 1);
      assert p(n - 1) ==> (p(n) <==> c(n - 1));
    }
  }

  lemma MulOrder(c: int, x: int, y: int)
    requires c >= 0
    ensures x <= y ==> c * x <= c * y
  {
  }
}
