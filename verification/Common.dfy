/** Shared vocabulary: optional values, opaque identifiers and sums over finite sequences. */
module Common {

  datatype Option<+T> = None | Some(value: T)

  /** A delegation id. The ledger only ever compares ids for equality. */
  type Id(==,!new,0)

  /** Any other caller-chosen string: an agent, an outcome, an event name. */
  type Name(==,!new,0)

  function Min(a: int, b: int): int {
    if a <= b then a else b
  }

  function Max(a: int, b: int): int {
    if a >= b then a else b
  }

  /** The sum of `f` over `s`, element by element. */
  function Sum<T(!new)>(s: seq<T>, f: T -> int): int {
    if s == [] then 0 else Sum(s[..|s| - 1], f) + f(s[|s| - 1])
  }

  lemma SumSnoc<T(!new)>(s: seq<T>, x: T, f: T -> int)
    ensures Sum(s + [x], f) == Sum(s, f) + f(x)
  {
  }

  /** Two weightings that agree on every element have the same sum. */
  lemma {:induction false} SumAgree<T(!new)>(s: seq<T>, f: T -> int, g: T -> int)
    requires forall i :: 0 <= i < |s| ==> f(s[i]) == g(s[i])
    ensures Sum(s, f) == Sum(s, g)
  {
    if s != [] {
      SumAgree(s[..|s| - 1], f, g);
    }
  }

  /** Changing the weight of one position changes the sum by exactly that difference. */
  lemma {:induction false} SumChange<T(!new)>(s: seq<T>, k: nat, f: T -> int, g: T -> int)
    requires k < |s|
    requires forall i :: 0 <= i < |s| && i != k ==> f(s[i]) == g(s[i])
    ensures Sum(s, g) == Sum(s, f) + g(s[k]) - f(s[k])
  {
    if k == |s| - 1 {
      SumAgree(s[..|s| - 1], f, g);
    } else {
      SumChange(s[..|s| - 1], k, f, g);
    }
  }

  lemma {:induction false} SumPlus<T(!new)>(s: seq<T>, f: T -> int, g: T -> int, h: T -> int)
    requires forall i :: 0 <= i < |s| ==> f(s[i]) == g(s[i]) + h(s[i])
    ensures Sum(s, f) == Sum(s, g) + Sum(s, h)
  {
    if s != [] {
      SumPlus(s[..|s| - 1], f, g, h);
    }
  }

  lemma {:induction false} SumBounded<T(!new)>(s: seq<T>, f: T -> int, g: T -> int)
    requires forall i :: 0 <= i < |s| ==> f(s[i]) <= g(s[i])
    ensures Sum(s, f) <= Sum(s, g)
  {
    if s != [] {
      SumBounded(s[..|s| - 1], f, g);
    }
  }

  /** With no negative weight, one element never outweighs the whole. */
  lemma {:induction false} SumCovers<T(!new)>(s: seq<T>, k: nat, f: T -> int)
    requires k < |s|
    requires forall i :: 0 <= i < |s| ==> f(s[i]) >= 0
    ensures 0 <= f(s[k]) <= Sum(s, f)
  {
    SumZeroOrMore(s[..|s| - 1], f);
    if k < |s| - 1 {
      SumCovers(s[..|s| - 1], k, f);
    }
  }

  lemma {:induction false} SumZeroOrMore<T(!new)>(s: seq<T>, f: T -> int)
    requires forall i :: 0 <= i < |s| ==> f(s[i]) >= 0
    ensures Sum(s, f) >= 0
  {
    if s != [] {
      SumZeroOrMore(s[..|s| - 1], f);
    }
  }

  /** If `h` sends distinct elements of `s` to distinct elements of `t`, and each weighs no more than its
      image, then `s` weighs no more than `t`. Elements that weigh nothing need no image. */
  lemma {:induction false} SumInjected<S(!new), T(!new)>(s: seq<S>, t: seq<T>, h: S -> T, f: S -> int, g: T -> int)
    requires forall i, j :: 0 <= i < j < |s| ==> s[i] != s[j] && h(s[i]) != h(s[j])
    requires forall i, j :: 0 <= i < j < |t| ==> t[i] != t[j]
    requires forall i :: 0 <= i < |t| ==> g(t[i]) >= 0
    requires forall i :: 0 <= i < |s| ==> f(s[i]) <= 0 || (h(s[i]) in t && f(s[i]) <= g(h(s[i])))
    ensures Sum(s, f) <= Sum(t, g)
  {
    if s == [] {
      SumZeroOrMore(t, g);
    } else {
      var last := s[|s| - 1];
      if f(last) <= 0 {
        SumInjected(s[..|s| - 1], t, h, f, g);
      } else {
        var k :| 0 <= k < |t| && t[k] == h(last);
        var y := h(last);
        var g' := (x: T) => if x == y then 0 else g(x);
        SumInjected(s[..|s| - 1], t, h, f, g');
        SumChange(t, k, g', g);
      }
    }
  }

  lemma SubsetCount<T>(a: set<T>, b: set<T>)
    requires a <= b
    ensures |a| <= |b|
  {
    assert b == a + (b - a);
  }
}
