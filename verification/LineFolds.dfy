// Reading lines one by one: a state that each line changes, and what each line gives.
module LineFolds {
  function StateAfter<S>(next: (S, string, nat) -> S, s: S, lines: seq<string>, i: nat): S
    requires i <= |lines|
  {
    if i == 0 then s else next(StateAfter(next, s, lines, i - 1), lines[i - 1], i - 1)
  }

  // What line i gives.
  function GivenAt<S, L>(
    next: (S, string, nat) -> S, give: (S, string, nat) -> seq<L>, s: S, lines: seq<string>, i: nat): seq<L>
    requires i < |lines|
  {
    give(StateAfter(next, s, lines, i), lines[i], i)
  }

  // What the lines from a on give, up to line i.
  function Given<S, L>(
    next: (S, string, nat) -> S, give: (S, string, nat) -> seq<L>, s: S, lines: seq<string>, a: nat, i: nat): seq<L>
    requires a <= i <= |lines|
  {
    if i == a then []
    else Given(next, give, s, lines, a, i - 1) + GivenAt(next, give, s, lines, i - 1)
  }

  function Mapped<L, M>(e: L -> M, ls: seq<L>): (r: seq<M>)
    ensures |r| == |ls| && forall i :: 0 <= i < |ls| ==> r[i] == e(ls[i])
  {
    seq(|ls|, i requires 0 <= i < |ls| => e(ls[i]))
  }

  lemma {:induction false} GivenSplits<S, L>(
    next: (S, string, nat) -> S, give: (S, string, nat) -> seq<L>, s: S, lines: seq<string>, a: nat, i: nat)
    requires a <= i <= |lines|
    ensures Given(next, give, s, lines, 0, i) == Given(next, give, s, lines, 0, a) + Given(next, give, s, lines, a, i)
  {
    if i > a { GivenSplits(next, give, s, lines, a, i - 1); }
  }

  // A prefix of the lines decides what it leads to and what it gives.
  lemma {:induction false} PrefixDecides<S, L>(
    next: (S, string, nat) -> S, give: (S, string, nat) -> seq<L>, s: S, before: seq<string>, all: seq<string>, i: nat)
    requires before <= all && i <= |before|
    ensures StateAfter(next, s, all, i) == StateAfter(next, s, before, i)
    ensures Given(next, give, s, all, 0, i) == Given(next, give, s, before, 0, i)
  {
    if i > 0 {
      PrefixDecides(next, give, s, before, all, i - 1);
      assert all[i - 1] == before[i - 1];
    }
  }

  // If `toCome` is always what the next line gives and what is to come after it, the lines give all
  // there is to come.
  lemma {:induction false} GivesAll<S, L>(
    next: (S, string, nat) -> S, give: (S, string, nat) -> seq<L>, s: S, lines: seq<string>, i: nat,
    toCome: nat -> seq<L>)
    requires i <= |lines|
    requires forall k :: 0 <= k < |lines| ==> toCome(k) == GivenAt(next, give, s, lines, k) + toCome(k + 1)
    ensures toCome(0) == Given(next, give, s, lines, 0, i) + toCome(i)
  {
    if i > 0 {
      GivesAll(next, give, s, lines, i - 1, toCome);
      assert toCome(i - 1) == GivenAt(next, give, s, lines, i - 1) + toCome(i);
    }
  }

  lemma {:induction false} GivenStands<S, L>(
    next: (S, string, nat) -> S, give: (S, string, nat) -> seq<L>, s: S, lines: seq<string>, a: nat, i: nat, l: L)
    requires a <= i <= |lines|
    ensures l in Given(next, give, s, lines, a, i) <==>
      exists k :: a <= k < i && l in GivenAt(next, give, s, lines, k)
  {
    if i > a { GivenStands(next, give, s, lines, a, i - 1, l); }
  }

  lemma {:induction false} GivenFirst<S, L>(
    next: (S, string, nat) -> S, give: (S, string, nat) -> seq<L>, s: S, lines: seq<string>, a: nat, i: nat)
    requires a < i <= |lines|
    ensures Given(next, give, s, lines, a, i) ==
      GivenAt(next, give, s, lines, a) + Given(next, give, s, lines, a + 1, i)
  {
    if i > a + 1 {
      GivenFirst(next, give, s, lines, a, i - 1);
    } else {
      assert Given(next, give, s, lines, a, a) == [] && Given(next, give, s, lines, a + 1, a + 1) == [];
    }
  }

  lemma {:induction false} GivenHolds<S, L>(
    next: (S, string, nat) -> S, give: (S, string, nat) -> seq<L>, s: S, lines: seq<string>, a: nat, i: nat,
    holds: L -> bool)
    requires a <= i <= |lines|
    requires forall k, l :: a <= k < i && l in GivenAt(next, give, s, lines, k) ==> holds(l)
    ensures forall l :: l in Given(next, give, s, lines, a, i) ==> holds(l)
  {
    if i > a { GivenHolds(next, give, s, lines, a, i - 1, holds); }
  }

  // The same lines one place further down, from a state that corresponds: they give what they gave,
  // changed by e.
  lemma {:induction false} FurtherDown<S, L>(
    next: (S, string, nat) -> S, give: (S, string, nat) -> seq<L>, s: S, p: seq<string>, q: seq<string>, a: nat, i: nat,
    h: S -> S, e: L -> L, ok: S -> bool)
    requires a <= i <= |p| && |q| == |p| + 1 && forall k :: a <= k < |p| ==> q[k + 1] == p[k]
    requires ok(StateAfter(next, s, p, a)) && StateAfter(next, s, q, a + 1) == h(StateAfter(next, s, p, a))
    requires forall o, x, k :: ok(o) && k >= a ==>
      ok(next(o, x, k)) && next(h(o), x, k + 1) == h(next(o, x, k)) && give(h(o), x, k + 1) == Mapped(e, give(o, x, k))
    ensures ok(StateAfter(next, s, p, i)) && StateAfter(next, s, q, i + 1) == h(StateAfter(next, s, p, i))
    ensures Given(next, give, s, q, a + 1, i + 1) == Mapped(e, Given(next, give, s, p, a, i))
  {
    if i > a {
      FurtherDown(next, give, s, p, q, a, i - 1, h, e, ok);
      assert q[i] == p[i - 1];
      assert GivenAt(next, give, s, q, i) == Mapped(e, GivenAt(next, give, s, p, i - 1));
    }
  }
}
