/** Edit distance with two rows, and the nearest known name to an unknown one. */
module Validation {

  function Min(a: nat, b: nat): nat {
    if a <= b then a else b
  }

  function Cost(x: char, y: char): nat {
    if x == y then 0 else 1
  }

  /** The Levenshtein distance, by its recurrence on last characters. */
  function Levenshtein(a: string, b: string): nat
    decreases |a| + |b|
  {
    if a == [] then |b|
    else if b == [] then |a|
    else
      var a', b' := a[..|a| - 1], b[..|b| - 1];
      Min(Min(Levenshtein(a', b) + 1, Levenshtein(a, b') + 1), Levenshtein(a', b') + Cost(a[|a| - 1], b[|b| - 1]))
  }

  lemma Ends(a: string)
    ensures Levenshtein(a, []) == |a| && Levenshtein([], a) == |a|
  {
  }

  // ----- the two-row loop

  /** The distance between the first `i` characters of `a` and the first `j` of `b`. */
  function Cell(a: string, b: string, i: nat, j: nat): nat
    requires i <= |a| && j <= |b|
  {
    Levenshtein(a[..i], b[..j])
  }

  lemma CellIs(a: string, b: string, i: nat, j: nat)
    requires 0 < i <= |a| && 0 < j <= |b|
    ensures Cell(a, b, i, j) == Min(Min(Cell(a, b, i - 1, j) + 1, Cell(a, b, i, j - 1) + 1), Cell(a, b, i - 1, j - 1) + Cost(a[i - 1], b[j - 1]))
  {
    assert a[..i][..i - 1] == a[..i - 1];
    assert b[..j][..j - 1] == b[..j - 1];
  }

  lemma CellEnds(a: string, b: string, i: nat, j: nat)
    requires i <= |a| && j <= |b|
    ensures Cell(a, b, i, 0) == i && Cell(a, b, 0, j) == j && Cell(a, b, |a|, |b|) == Levenshtein(a, b)
  {
    Ends(a[..i]);
    Ends(b[..j]);
    assert a[..|a|] == a && b[..|b|] == b;
  }

  /** One row of the table from the row before it. */
  method FillRow(a: string, b: string, i: nat, prev: array<nat>, cur: array<nat>)
    requires 0 < i <= |a| && prev.Length == cur.Length == |b| + 1 && prev != cur
    requires forall j :: 0 <= j <= |b| ==> prev[j] == Cell(a, b, i - 1, j)
    modifies cur
    ensures forall j :: 0 <= j <= |b| ==> cur[j] == Cell(a, b, i, j)
  {
    CellEnds(a, b, i, 0);
    hide Cell;
    cur[0] := i;
    var j := 1;
    while j <= |b|
      invariant 1 <= j <= |b| + 1
      invariant forall k :: 0 <= k < j ==> cur[k] == Cell(a, b, i, k)
    {
      var cost := 1;
      if a[i - 1] == b[j - 1] {
        cost := 0;
      }
      CellIs(a, b, i, j);
      cur[j] := Min(Min(prev[j] + 1, cur[j - 1] + 1), prev[j - 1] + cost);
      j := j + 1;
    }
  }

  /** The distance, keeping only the previous and the current row of the table. */
  method EditDistance(a: string, b: string) returns (d: nat)
    ensures d == Levenshtein(a, b)
  {
    var prev := new nat[|b| + 1](j => j);
    var cur := new nat[|b| + 1](_ => 0);
    forall j | 0 <= j <= |b|
      ensures prev[j] == Cell(a, b, 0, j)
    {
      CellEnds(a, b, 0, j);
    }
    CellEnds(a, b, 0, 0);
    hide Cell;
    var i := 1;
    while i <= |a|
      invariant 1 <= i <= |a| + 1
      invariant prev != cur && prev.Length == cur.Length == |b| + 1 && fresh(prev) && fresh(cur)
      invariant forall j :: 0 <= j <= |b| ==> prev[j] == Cell(a, b, i - 1, j)
    {
      FillRow(a, b, i, prev, cur);
      prev, cur := cur, prev;
      i := i + 1;
    }
    d := prev[|b|];
  }

  // ----- a metric

  /** The three ways to get from `a` to `b` bound the distance from above. */
  lemma Upper(a: string, b: string)
    ensures a != [] ==> Levenshtein(a, b) <= Levenshtein(a[..|a| - 1], b) + 1
    ensures b != [] ==> Levenshtein(a, b) <= Levenshtein(a, b[..|b| - 1]) + 1
    ensures a != [] && b != [] ==> Levenshtein(a, b) <= Levenshtein(a[..|a| - 1], b[..|b| - 1]) + Cost(a[|a| - 1], b[|b| - 1])
  {
    if a != [] && b == [] {
      assert Levenshtein(a[..|a| - 1], b) == |a| - 1;
    }
  }

  lemma {:induction false} Symmetric(a: string, b: string)
    ensures Levenshtein(a, b) == Levenshtein(b, a)
    decreases |a| + |b|
  {
    if a != [] && b != [] {
      Symmetric(a[..|a| - 1], b);
      Symmetric(a, b[..|b| - 1]);
      Symmetric(a[..|a| - 1], b[..|b| - 1]);
    }
  }

  lemma {:induction false} Self(a: string)
    ensures Levenshtein(a, a) == 0
  {
    if a != [] {
      Self(a[..|a| - 1]);
      Upper(a, a);
    }
  }

  lemma {:induction false} ZeroIffEqual(a: string, b: string)
    ensures Levenshtein(a, b) == 0 <==> a == b
    decreases |a| + |b|
  {
    if a == b {
      Self(a);
    } else if a != [] && b != [] {
      ZeroIffEqual(a[..|a| - 1], b[..|b| - 1]);
      assert a == a[..|a| - 1] + [a[|a| - 1]] && b == b[..|b| - 1] + [b[|b| - 1]];
    }
  }

  /** A distance is at least the difference of the lengths. */
  lemma {:induction false} Lengths(a: string, b: string)
    ensures |a| <= |b| + Levenshtein(a, b) && |b| <= |a| + Levenshtein(a, b)
    ensures Levenshtein(a, b) <= |a| + |b|
    decreases |a| + |b|
  {
    if a != [] && b != [] {
      Lengths(a[..|a| - 1], b);
      Lengths(a, b[..|b| - 1]);
      Lengths(a[..|a| - 1], b[..|b| - 1]);
    }
  }

  lemma {:induction false} Triangle(a: string, b: string, c: string)
    ensures Levenshtein(a, c) <= Levenshtein(a, b) + Levenshtein(b, c)
    decreases |a| + |b| + |c|
  {
    if a == [] || b == [] || c == [] {
      Lengths(a, b);
      Lengths(b, c);
      Lengths(a, c);
    } else {
      var a', b', c' := a[..|a| - 1], b[..|b| - 1], c[..|c| - 1];
      Upper(a, c);
      Triangle(a', b, c);
      Triangle(a, b, c');
      Triangle(a, b', c);
      Triangle(a, b', c');
      Triangle(a', b', c);
      Triangle(a', b', c');
      LastStep(a, b);
      LastStep(b, c);
    }
  }

  /** The distance is attained by one of the three ways. */
  lemma LastStep(a: string, b: string)
    requires a != [] && b != []
    ensures || Levenshtein(a, b) == Levenshtein(a[..|a| - 1], b) + 1
            || Levenshtein(a, b) == Levenshtein(a, b[..|b| - 1]) + 1
            || Levenshtein(a, b) == Levenshtein(a[..|a| - 1], b[..|b| - 1]) + Cost(a[|a| - 1], b[|b| - 1])
  {
  }

  // ----- the least number of edits

  /** `t` is `s` with one character deleted, inserted or replaced at `i`. */
  predicate EditAt(s: string, t: string, i: nat) {
    i <= |s| &&
    ((i < |s| && t == s[..i] + s[i + 1..])
     || (i < |t| && t == s[..i] + [t[i]] + s[i..])
     || (i < |s| && i < |t| && t == s[..i] + [t[i]] + s[i + 1..]))
  }

  ghost predicate OneEdit(s: string, t: string) {
    exists i: nat :: EditAt(s, t, i)
  }

  /** A way from the first string of `p` to its last, one edit at a time. */
  ghost predicate Edits(p: seq<string>) {
    |p| > 0 && forall k :: 0 <= k < |p| - 1 ==> OneEdit(p[k], p[k + 1])
  }

  /** A common suffix does not add to the distance. */
  lemma {:induction false} Suffix(a: string, b: string, s: string)
    ensures Levenshtein(a + s, b + s) <= Levenshtein(a, b)
  {
    if s == [] {
      assert a + s == a && b + s == b;
    } else {
      var s' := s[..|s| - 1];
      Suffix(a, b, s');
      Upper(a + s, b + s);
      assert (a + s)[..|a + s| - 1] == a + s' && (b + s)[..|b + s| - 1] == b + s';
    }
  }

  lemma OneEditIsOne(s: string, t: string)
    requires OneEdit(s, t)
    ensures Levenshtein(s, t) <= 1
  {
    hide Levenshtein;
    var i: nat :| EditAt(s, t, i);
    var u := s[..i];
    if i < |s| && t == u + s[i + 1..] {
      Deleted(u, s[i], s[i + 1..]);
      assert u + [s[i]] + s[i + 1..] == s;
    } else if i < |t| && t == u + [t[i]] + s[i..] {
      Deleted(u, t[i], s[i..]);
      assert u + s[i..] == s;
      Symmetric(s, t);
    } else {
      Replaced(u, s[i], t[i], s[i + 1..]);
      assert u + [s[i]] + s[i + 1..] == s;
    }
  }

  lemma Deleted(u: string, c: char, v: string)
    ensures Levenshtein(u + [c] + v, u + v) <= 1
  {
    hide Levenshtein;
    Self(u);
    Upper(u + [c], u);
    assert (u + [c])[..|u|] == u;
    Suffix(u + [c], u, v);
  }

  lemma Replaced(u: string, c: char, d: char, v: string)
    ensures Levenshtein(u + [c] + v, u + [d] + v) <= 1
  {
    hide Levenshtein;
    Self(u);
    Upper(u + [c], u + [d]);
    assert (u + [c])[..|u|] == u && (u + [d])[..|u|] == u;
    Suffix(u + [c], u + [d], v);
  }

  /** No way from `a` to `b` is shorter than the distance. */
  lemma {:induction false} NoShorterWay(p: seq<string>)
    requires Edits(p)
    ensures Levenshtein(p[0], p[|p| - 1]) <= |p| - 1
  {
    if |p| == 1 {
      Self(p[0]);
    } else {
      var q := p[..|p| - 1];
      assert forall k :: 0 <= k < |q| - 1 ==> OneEdit(q[k], q[k + 1]);
      NoShorterWay(q);
      assert OneEdit(p[|p| - 2], p[|p| - 2 + 1]);
      OneEditIsOne(p[|p| - 2], p[|p| - 1]);
      Triangle(p[0], p[|p| - 2], p[|p| - 1]);
    }
  }

  /** The same edits, with `x` after every string. */
  function Appended(p: seq<string>, x: char): (r: seq<string>)
    ensures |r| == |p| && forall k :: 0 <= k < |p| ==> r[k] == p[k] + [x]
  {
    seq(|p|, k requires 0 <= k < |p| => p[k] + [x])
  }

  lemma EditAppended(s: string, t: string, x: char)
    requires OneEdit(s, t)
    ensures OneEdit(s + [x], t + [x])
  {
    var i: nat :| EditAt(s, t, i);
    var s', t' := s + [x], t + [x];
    assert s'[..i] == s[..i];
    assert i < |t| ==> t'[i] == t[i];
    assert s'[i..] == s[i..] + [x];
    assert i < |s| ==> s'[i + 1..] == s[i + 1..] + [x];
    assert EditAt(s', t', i);
  }

  lemma AppendedEdits(p: seq<string>, x: char)
    requires Edits(p)
    ensures Edits(Appended(p, x))
  {
    forall k | 0 <= k < |p| - 1
      ensures OneEdit(Appended(p, x)[k], Appended(p, x)[k + 1])
    {
      EditAppended(p[k], p[k + 1], x);
    }
  }

  lemma LastEdits(a: string, x: char, y: char)
    ensures OneEdit(a + [x], a) && OneEdit(a, a + [x]) && OneEdit(a + [x], a + [y])
  {
    assert EditAt(a + [x], a, |a|);
    assert EditAt(a, a + [x], |a|);
    assert EditAt(a + [x], a + [y], |a|);
  }

  lemma Extended(p: seq<string>, t: string)
    requires Edits(p) && OneEdit(p[|p| - 1], t)
    ensures Edits(p + [t])
  {
  }

  lemma Preceded(s: string, p: seq<string>)
    requires Edits(p) && OneEdit(s, p[0])
    ensures Edits([s] + p)
  {
    var r := [s] + p;
    forall k | 0 <= k < |r| - 1
      ensures OneEdit(r[k], r[k + 1])
    {
      if k > 0 {
        assert r[k] == p[k - 1] && r[k + 1] == p[k - 1 + 1];
      }
    }
  }

  /** A way from `a` to `b` with `n` edits. */
  ghost predicate Way(p: seq<string>, a: string, b: string, n: nat) {
    Edits(p) && p[0] == a && p[|p| - 1] == b && |p| - 1 == n
  }

  lemma DeleteFirst(a: string, b: string, q: seq<string>, n: nat) returns (p: seq<string>)
    requires a != [] && Way(q, a[..|a| - 1], b, n)
    ensures Way(p, a, b, n + 1)
  {
    assert a == a[..|a| - 1] + [a[|a| - 1]];
    LastEdits(a[..|a| - 1], a[|a| - 1], a[|a| - 1]);
    hide OneEdit, Edits;
    assert Edits(q) && |q| > 0 by {
      WaySize(q, a[..|a| - 1], b, n);
    }
    Preceded(a, q);
    p := [a] + q;
  }

  lemma WaySize(p: seq<string>, a: string, b: string, n: nat)
    requires Way(p, a, b, n)
    ensures Edits(p) && |p| == n + 1 && p[0] == a && p[n] == b
  {
  }

  lemma InsertLast(a: string, b: string, q: seq<string>, n: nat) returns (p: seq<string>)
    requires b != [] && Way(q, a, b[..|b| - 1], n)
    ensures Way(p, a, b, n + 1)
  {
    assert b == b[..|b| - 1] + [b[|b| - 1]];
    LastEdits(b[..|b| - 1], b[|b| - 1], b[|b| - 1]);
    WaySize(q, a, b[..|b| - 1], n);
    hide OneEdit, Edits;
    Extended(q, b);
    p := q + [b];
  }

  lemma ReplaceLast(a: string, b: string, q: seq<string>, n: nat) returns (p: seq<string>)
    requires a != [] && b != [] && Way(q, a[..|a| - 1], b[..|b| - 1], n)
    ensures Way(p, a, b, n + Cost(a[|a| - 1], b[|b| - 1]))
  {
    var a', b', x, y := a[..|a| - 1], b[..|b| - 1], a[|a| - 1], b[|b| - 1];
    assert a == a' + [x] && b == b' + [y];
    WaySize(q, a', b', n);
    AppendedEdits(q, x);
    LastEdits(b', x, y);
    hide OneEdit, Edits;
    p := Appended(q, x);
    if x != y {
      Extended(p, b);
      p := p + [b];
    }
  }

  /** Some way from `a` to `b` has as many edits as the distance, so the distance is the least number of edits. */
  lemma {:induction false} ShortestWay(a: string, b: string) returns (p: seq<string>)
    ensures Way(p, a, b, Levenshtein(a, b))
    decreases |a| + |b|
  {
    if a == [] && b == [] {
      p := [[]];
    } else {
      Ends(a);
      Ends(b);
      if a != [] && b != [] {
        LastStep(a, b);
      } else if a != [] {
        Ends(a[..|a| - 1]);
      } else {
        Ends(b[..|b| - 1]);
      }
      hide Way, Levenshtein;
      if a != [] && Levenshtein(a, b) == Levenshtein(a[..|a| - 1], b) + 1 {
        var q := ShortestWay(a[..|a| - 1], b);
        p := DeleteFirst(a, b, q, Levenshtein(a[..|a| - 1], b));
      } else if b != [] && Levenshtein(a, b) == Levenshtein(a, b[..|b| - 1]) + 1 {
        var q := ShortestWay(a, b[..|b| - 1]);
        p := InsertLast(a, b, q, Levenshtein(a, b[..|b| - 1]));
      } else {
        var q := ShortestWay(a[..|a| - 1], b[..|b| - 1]);
        p := ReplaceLast(a, b, q, Levenshtein(a[..|a| - 1], b[..|b| - 1]));
      }
    }
  }

  // ----- the nearest name

  /** `k` is the first candidate at the least distance. */
  ghost predicate FirstNearest(unknown: string, candidates: seq<string>, k: nat) {
    && k < |candidates|
    && (forall j :: 0 <= j < |candidates| ==> Levenshtein(unknown, candidates[k]) <= Levenshtein(unknown, candidates[j]))
    && (forall j :: 0 <= j < k ==> Levenshtein(unknown, candidates[k]) < Levenshtein(unknown, candidates[j]))
  }

  /** The first candidate at the least distance if that is at most two, else the empty string. */
  method Nearest(unknown: string, candidates: seq<string>) returns (best: string)
    ensures if exists j :: 0 <= j < |candidates| && Levenshtein(unknown, candidates[j]) <= 2
            then exists k: nat :: FirstNearest(unknown, candidates, k) && best == candidates[k] && Levenshtein(unknown, best) <= 2
            else best == ""
  {
    best := "";
    var bestDist: int := -1;
    ghost var at: nat := 0;
    var i := 0;
    while i < |candidates|
      invariant 0 <= i <= |candidates|
      invariant i == 0 ==> bestDist == -1 && best == ""
      invariant i > 0 ==> 0 <= at < i && FirstNearest(unknown, candidates[..i], at) && best == candidates[at] && bestDist == Levenshtein(unknown, best)
    {
      var d := EditDistance(unknown, candidates[i]);
      assert candidates[..i + 1] == candidates[..i] + [candidates[i]];
      if bestDist < 0 || d < bestDist {
        bestDist := d;
        best := candidates[i];
        at := i;
      }
      i := i + 1;
    }
    assert candidates[..i] == candidates;
    if bestDist > 2 {
      best := "";
    }
  }
}
