/** Typo tolerance of the zone matcher: the in-place table of `levenshtein` and what
    its number means. An edit distance is defined by edit scripts alone; the
    recurrence the table follows is shown to meet that definition. */
module EditDistance {
  import opened Common

  /** One edit at a position counted from the left. */
  datatype Edit =
    | Insert(at: nat, c: char)
    | Delete(at: nat)
    | Substitute(at: nat, c: char)

  predicate Applicable(e: Edit, s: string) {
    match e
    case Insert(at, _) => at <= |s|
    case Delete(at) => at < |s|
    case Substitute(at, _) => at < |s|
  }

  function Apply(e: Edit, s: string): string
    requires Applicable(e, s)
  {
    match e
    case Insert(at, c) => s[..at] + [c] + s[at..]
    case Delete(at) => s[..at] + s[at + 1..]
    case Substitute(at, c) => s[..at] + [c] + s[at + 1..]
  }

  /** Carrying out the edits of `script` in order turns `s` into `t`. */
  predicate Rewrites(s: string, script: seq<Edit>, t: string)
    decreases |script|
  {
    if script == [] then s == t
    else Applicable(script[0], s) && Rewrites(Apply(script[0], s), script[1..], t)
  }

  /** `d` is the length of a shortest edit script from `a` to `b`. */
  ghost predicate IsEditDistance(a: string, b: string, d: nat) {
    && (exists script :: |script| == d && Rewrites(a, script, b))
    && (forall script :: Rewrites(a, script, b) ==> d <= |script|)
  }

  function Init(s: string): string requires s != [] { s[..|s| - 1] }

  function Last(s: string): char requires s != [] { s[|s| - 1] }

  /** The table's recurrence, on prefixes: equal last characters take the diagonal
      without looking at the other two cells. */
  function Cell(a: string, b: string): nat
    decreases |a| + |b|
  {
    if a == [] then |b|
    else if b == [] then |a|
    else if Last(a) == Last(b) then Cell(Init(a), Init(b))
    else 1 + Min(Cell(Init(a), Init(b)), Min(Cell(Init(a), b), Cell(a, Init(b))))
  }

  // ----- the recurrence never jumps by more than one -----

  /** Dropping a last character of either word moves the cell by at most one. */
  lemma {:induction false} NeighbourCells(a: string, b: string)
    ensures a != [] ==> Cell(a, b) <= Cell(Init(a), b) + 1 && Cell(Init(a), b) <= Cell(a, b) + 1
    ensures b != [] ==> Cell(a, b) <= Cell(a, Init(b)) + 1 && Cell(a, Init(b)) <= Cell(a, b) + 1
    ensures a != [] && b != [] ==> Cell(a, b) <= Cell(Init(a), Init(b)) + 1
    decreases |a| + |b|
  {
    if a != [] && b != [] {
      NeighbourCells(Init(a), Init(b));
      NeighbourCells(Init(a), b);
      NeighbourCells(a, Init(b));
    }
  }

  /** The same for a piece at the end. */
  lemma {:induction false} LastPiece(u: string, p: string, m: string, n: string)
    requires |m| <= 1 && |n| <= 1
    ensures Cell(u, p + m) <= Cell(u, p + n) + 1
    decreases |u|
  {
    var v, w := p + m, p + n;
    NeighbourCells(u, v);
    NeighbourCells(u, w);
    if u != [] && m != [] && n != [] {
      assert Init(v) == p && Init(w) == p;
      LastPiece(Init(u), p, m, n);
      NeighbourCells(Init(u), v);
    } else if m != [] {
      assert Init(v) == p;
      if n == [] { assert w == p; }
    } else if n != [] {
      assert Init(w) == p && v == p;
    }
  }

  /** A common last character keeps two words as close to `u` as they were without it. */
  lemma SameLast(u: string, v: string, w: string)
    requires u != [] && v != [] && w != [] && Last(v) == Last(w)
    requires Cell(Init(u), Init(v)) <= Cell(Init(u), Init(w)) + 1
    requires Cell(Init(u), v) <= Cell(Init(u), w) + 1 && Cell(u, Init(v)) <= Cell(u, Init(w)) + 1
    ensures Cell(u, v) <= Cell(u, w) + 1
  {
  }

  /** Replacing a middle piece of length at most one by another such piece moves the
      distance to any fixed word `u` by at most one. */
  lemma {:induction false} MiddlePiece(u: string, p: string, m: string, n: string, q: string)
    requires |m| <= 1 && |n| <= 1
    ensures Cell(u, p + m + q) <= Cell(u, p + n + q) + 1
    decreases |u| + |q|
  {
    var v, w := p + m + q, p + n + q;
    if u == [] {
    } else if q == [] {
      assert v == p + m && w == p + n;
      LastPiece(u, p, m, n);
    } else {
      var q' := Init(q);
      assert Init(v) == p + m + q' && Init(w) == p + n + q';
      assert Last(v) == Last(q) && Last(w) == Last(q);
      MiddlePiece(Init(u), p, m, n, q');
      MiddlePiece(Init(u), p, m, n, q);
      MiddlePiece(u, p, m, n, q');
      SameLast(u, v, w);
    }
  }

  /** One edit of the second word changes the recurrence by at most one. */
  lemma {:induction false} OneEditIsClose(u: string, e: Edit, s: string)
    requires Applicable(e, s)
    ensures Cell(u, Apply(e, s)) <= Cell(u, s) + 1
  {
    match e
    case Insert(at, c) =>
      assert s == s[..at] + [] + s[at..];
      MiddlePiece(u, s[..at], [c], [], s[at..]);
    case Delete(at) =>
      assert s == s[..at] + [s[at]] + s[at + 1..];
      assert Apply(e, s) == s[..at] + [] + s[at + 1..];
      MiddlePiece(u, s[..at], [], [s[at]], s[at + 1..]);
    case Substitute(at, c) =>
      assert s == s[..at] + [s[at]] + s[at + 1..];
      MiddlePiece(u, s[..at], [c], [s[at]], s[at + 1..]);
  }

  lemma {:induction false} ScriptIsNoShorter(u: string, s: string, script: seq<Edit>, t: string)
    requires Rewrites(s, script, t)
    ensures Cell(u, t) <= Cell(u, s) + |script|
    decreases |script|
  {
    if script != [] {
      OneEditIsClose(u, script[0], s);
      ScriptIsNoShorter(u, Apply(script[0], s), script[1..], t);
    }
  }

  lemma {:induction false} SameWord(a: string)
    ensures Cell(a, a) == 0
    decreases |a|
  {
    if a != [] { SameWord(Init(a)); }
  }

  // ----- the recurrence is reached by a script -----

  lemma {:induction false} ScriptsCompose(s: string, p: seq<Edit>, t: string, q: seq<Edit>, u: string)
    requires Rewrites(s, p, t) && Rewrites(t, q, u)
    ensures Rewrites(s, p + q, u)
    decreases |p|
  {
    if p == [] {
      assert p + q == q;
    } else {
      var e, rest := p[0], p[1..];
      assert p + q == [e] + (rest + q);
      ScriptsCompose(Apply(e, s), rest, t, q, u);
      EditFirst(s, e, rest + q, u);
    }
  }

  /** Positions count from the left, so a script also works under a common last character. */
  lemma {:induction false} ScriptsExtend(s: string, script: seq<Edit>, t: string, x: char)
    requires Rewrites(s, script, t)
    ensures Rewrites(s + [x], script, t + [x])
    decreases |script|
  {
    if script != [] {
      var e := script[0];
      assert Apply(e, s + [x]) == Apply(e, s) + [x] by {
        match e
        case Insert(at, c) =>
          assert (s + [x])[..at] == s[..at] && (s + [x])[at..] == s[at..] + [x];
        case Delete(at) =>
          assert (s + [x])[..at] == s[..at] && (s + [x])[at + 1..] == s[at + 1..] + [x];
        case Substitute(at, c) =>
          assert (s + [x])[..at] == s[..at] && (s + [x])[at + 1..] == s[at + 1..] + [x];
      }
      ScriptsExtend(Apply(e, s), script[1..], t, x);
    }
  }

  lemma {:induction false} OneMoreEdit(s: string, script: seq<Edit>, t: string, e: Edit)
    requires Rewrites(s, script, t) && Applicable(e, t)
    ensures Rewrites(s, script + [e], Apply(e, t))
  {
    assert [e][1..] == [];
    ScriptsCompose(s, script, t, [e], Apply(e, t));
  }

  lemma {:induction false} EditFirst(s: string, e: Edit, script: seq<Edit>, t: string)
    requires Applicable(e, s) && Rewrites(Apply(e, s), script, t)
    ensures Rewrites(s, [e] + script, t)
  {
    assert ([e] + script)[1..] == script;
  }

  /** A script of exactly the recurrence's length. */
  lemma {:induction false} ScriptOfCellLength(a: string, b: string) returns (script: seq<Edit>)
    ensures |script| == Cell(a, b) && Rewrites(a, script, b)
    decreases |a| + |b|
  {
    if a == [] && b == [] {
      script := [];
    } else if a == [] || (b != [] && Last(a) != Last(b) && Cell(a, b) == 1 + Cell(a, Init(b))) {
      script := InsertLast(a, b);
    } else if b == [] || (Last(a) != Last(b) && Cell(a, b) == 1 + Cell(Init(a), b)) {
      script := DeleteLast(a, b);
    } else {
      script := AlongDiagonal(a, b);
    }
  }

  lemma {:induction false} InsertLast(a: string, b: string) returns (script: seq<Edit>)
    requires b != []
    ensures |script| == Cell(a, Init(b)) + 1 && Rewrites(a, script, b)
    decreases |a| + |b|, 0
  {
    script := ScriptOfCellLength(a, Init(b));
    var e := Insert(|b| - 1, Last(b));
    assert Apply(e, Init(b)) == b;
    OneMoreEdit(a, script, Init(b), e);
    script := script + [e];
  }

  lemma {:induction false} DeleteLast(a: string, b: string) returns (script: seq<Edit>)
    requires a != []
    ensures |script| == Cell(Init(a), b) + 1 && Rewrites(a, script, b)
    decreases |a| + |b|, 0
  {
    script := ScriptOfCellLength(Init(a), b);
    var e := Delete(|a| - 1);
    assert Apply(e, a) == Init(a);
    EditFirst(a, e, script, b);
    script := [e] + script;
  }

  lemma UnderLast(a: string, b: string, script: seq<Edit>)
    requires a != [] && b != [] && Rewrites(Init(a), script, Init(b))
    ensures Rewrites(a, script, Init(b) + [Last(a)])
    ensures Last(a) == Last(b) ==> Rewrites(a, script, b)
  {
    assert Init(a) + [Last(a)] == a && Init(b) + [Last(b)] == b;
    ScriptsExtend(Init(a), script, Init(b), Last(a));
  }

  lemma {:induction false} AlongDiagonal(a: string, b: string) returns (script: seq<Edit>)
    requires a != [] && b != []
    ensures |script| == Cell(Init(a), Init(b)) + (if Last(a) == Last(b) then 0 else 1)
    ensures Rewrites(a, script, b)
    decreases |a| + |b|, 0
  {
    script := ScriptOfCellLength(Init(a), Init(b));
    UnderLast(a, b, script);
    if Last(a) != Last(b) {
      var mid, e := Init(b) + [Last(a)], Substitute(|b| - 1, Last(b));
      SubstituteLast(mid, b);
      OneMoreEdit(a, script, mid, e);
      script := script + [e];
    }
  }

  lemma SubstituteLast(s: string, b: string)
    requires b != [] && s != [] && Init(s) == Init(b)
    ensures Applicable(Substitute(|b| - 1, Last(b)), s) && Apply(Substitute(|b| - 1, Last(b)), s) == b
  {
    assert |s| == |b|;
    assert s[..|b| - 1] == Init(b) && s[|b| - 1 + 1..] == [];
  }

  /** The recurrence, greedy diagonal included, is the length of a shortest script. */
  lemma CellIsEditDistance(a: string, b: string)
    ensures IsEditDistance(a, b, Cell(a, b))
  {
    var script := ScriptOfCellLength(a, b);
    forall other | Rewrites(a, other, b) ensures Cell(a, b) <= |other| {
      SameWord(a);
      ScriptIsNoShorter(a, a, other, b);
    }
  }

  // ----- it is a metric -----

  lemma {:induction false} CellSymmetric(a: string, b: string)
    ensures Cell(a, b) == Cell(b, a)
    decreases |a| + |b|
  {
    if a != [] && b != [] {
      CellSymmetric(Init(a), Init(b));
      CellSymmetric(Init(a), b);
      CellSymmetric(a, Init(b));
    }
  }

  /** Zero cost means nothing to rewrite, and going through a third word is no shortcut. */
  lemma CellMetric(a: string, b: string, c: string)
    ensures Cell(a, b) == 0 <==> a == b
    ensures Cell(a, c) <= Cell(a, b) + Cell(b, c)
  {
    SameWord(a);
    var p := ScriptOfCellLength(a, b);
    var q := ScriptOfCellLength(b, c);
    ScriptIsNoShorter(a, b, q, c);
  }

  lemma DistanceUnique(a: string, b: string, d: nat, e: nat)
    requires IsEditDistance(a, b, d) && IsEditDistance(a, b, e)
    ensures d == e
  {
    var p :| |p| == d && Rewrites(a, p, b);
    var q :| |q| == e && Rewrites(a, q, b);
  }

  lemma DistanceIsCell(a: string, b: string, d: nat)
    requires IsEditDistance(a, b, d)
    ensures d == Cell(a, b)
  {
    CellIsEditDistance(a, b);
    DistanceUnique(a, b, d, Cell(a, b));
  }

  /** Whatever numbers are edit distances, they obey the metric laws: zero exactly on
      equal words, symmetric, and the triangle inequality. */
  lemma EditDistanceIsAMetric(a: string, b: string, c: string, ab: nat, ba: nat, bc: nat, ac: nat)
    requires IsEditDistance(a, b, ab) && IsEditDistance(b, a, ba)
    requires IsEditDistance(b, c, bc) && IsEditDistance(a, c, ac)
    ensures ab == 0 <==> a == b
    ensures ab == ba
    ensures ac <= ab + bc
  {
    DistanceIsCell(a, b, ab);
    DistanceIsCell(b, a, ba);
    DistanceIsCell(b, c, bc);
    DistanceIsCell(a, c, ac);
    CellSymmetric(a, b);
    CellMetric(a, b, c);
  }

  /** What belongs in the table at row `i` and column `j`. */
  function Entry(a: string, b: string, i: nat, j: nat): nat
    requires i <= |a| && j <= |b|
  {
    Cell(a[..i], b[..j])
  }

  lemma EntryFromNeighbours(a: string, b: string, i: nat, j: nat)
    requires 0 < i <= |a| && 0 < j <= |b|
    ensures Entry(a, b, i, j)
            == if a[i - 1] == b[j - 1] then Entry(a, b, i - 1, j - 1)
               else 1 + Min(Entry(a, b, i - 1, j - 1), Min(Entry(a, b, i - 1, j), Entry(a, b, i, j - 1)))
  {
    assert Init(a[..i]) == a[..i - 1] && Init(b[..j]) == b[..j - 1];
  }

  lemma BorderEntries(a: string, b: string)
    ensures forall j :: 0 <= j <= |b| ==> Entry(a, b, 0, j) == j
    ensures forall i :: 0 <= i <= |a| ==> Entry(a, b, i, 0) == i
  {
  }

  /** The table filled row by row. */
  method FillTable(a: string, b: string) returns (d: nat)
    ensures d == Entry(a, b, |a|, |b|)
  {
    var dp := new nat[|a| + 1, |b| + 1]((i, j) => if i == 0 then j else if j == 0 then i else 0);
    BorderEntries(a, b);
    for i := 1 to |a| + 1
      invariant forall k, l :: 0 <= k <= |a| && 0 <= l <= |b| && (k < i || l == 0) ==> dp[k, l] == Entry(a, b, k, l)
    {
      for j := 1 to |b| + 1
        invariant forall k, l :: 0 <= k <= |a| && 0 <= l <= |b| && (k < i || l == 0 || (k == i && l < j)) ==>
          dp[k, l] == Entry(a, b, k, l)
      {
        EntryFromNeighbours(a, b, i, j);
        dp[i, j] :=
          if a[i - 1] == b[j - 1] then dp[i - 1, j - 1]
          else 1 + Min(dp[i - 1, j - 1], Min(dp[i - 1, j], dp[i, j - 1]));
      }
    }
    d := dp[|a|, |b|];
  }

  /** The corner of the table is the edit distance. */
  method Levenshtein(a: string, b: string) returns (d: nat)
    ensures IsEditDistance(a, b, d)
    ensures d == Cell(a, b)
  {
    d := FillTable(a, b);
    assert a[..|a|] == a && b[..|b|] == b;
    CellIsEditDistance(a, b);
  }
}
