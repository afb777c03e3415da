/** Small shared definitions: optional values, bounds, white space, and sums over finite sets of slots. */
module Common {

  datatype Option<+T> = None | Some(value: T)

  function Max(a: int, b: int): int {
    if a < b then b else a
  }

  function Min(a: int, b: int): int {
    if a < b then a else b
  }

  /** The line breaks of str.splitlines(). */
  predicate IsBreak(c: char) {
    c in {'\n', '\r', '\U{b}', '\U{c}', '\U{1c}', '\U{1d}', '\U{1e}', '\U{85}', '\U{2028}', '\U{2029}'}
  }

  /** The white space of str.strip() and of a pattern's \s. */
  predicate IsSpace(c: char) {
    || IsBreak(c) || c == ' ' || c == '\t' || c == '\U{1f}' || c == '\U{a0}' || c == '\U{1680}'
    || '\U{2000}' <= c <= '\U{200a}' || c == '\U{202f}' || c == '\U{205f}' || c == '\U{3000}'
  }

  predicate AllSpace(s: string) {
    forall i :: 0 <= i < |s| ==> IsSpace(s[i])
  }

  lemma Regroup<T>(a: seq<T>, b: seq<T>, c: seq<T>)
    ensures a + (b + c) == (a + b) + c && a + [] == a
  {}

  /** Sum of m over xs; SumAdd shows that the order of the choices does not matter. */
  ghost function Sum(xs: set<nat>, m: map<nat, int>): int
    requires xs <= m.Keys
  {
    if xs == {} then 0 else var x :| x in xs; m[x] + Sum(xs - {x}, m)
  }

  lemma {:induction false} SumAdd(xs: set<nat>, x: nat, m: map<nat, int>)
    requires xs <= m.Keys && x in m && x !in xs
    ensures Sum(xs + {x}, m) == Sum(xs, m) + m[x]
  {
    var all := xs + {x};
    var y :| y in all && Sum(all, m) == m[y] + Sum(all - {y}, m);
    if y == x {
      assert all - {y} == xs;
    } else {
      var rest := xs - {y};
      assert all - {y} == rest + {x};
      SumAdd(rest, x, m);
      assert rest + {y} == xs;
      SumAdd(rest, y, m);
    }
  }

  lemma {:induction false} SumAgree(xs: set<nat>, m: map<nat, int>, n: map<nat, int>)
    requires xs <= m.Keys && xs <= n.Keys
    requires forall x :: x in xs ==> m[x] == n[x]
    ensures Sum(xs, m) == Sum(xs, n)
  {
    if xs != {} {
      var x :| x in xs;
      var rest := xs - {x};
      assert rest + {x} == xs;
      SumAdd(rest, x, m);
      SumAdd(rest, x, n);
      SumAgree(rest, m, n);
    }
  }

  /** p is the larger of l and every m[x], x in xs. */
  ghost predicate IsPeak(p: int, l: int, xs: set<nat>, m: map<nat, int>)
    requires xs <= m.Keys
  {
    && l <= p
    && (forall x :: x in xs ==> m[x] <= p)
    && (p == l || exists x :: x in xs && m[x] == p)
  }

  ghost function Peak(l: int, xs: set<nat>, m: map<nat, int>): (p: int)
    requires xs <= m.Keys
    ensures IsPeak(p, l, xs, m)
  {
    if xs == {} then l else var x :| x in xs; Max(m[x], Peak(l, xs - {x}, m))
  }
}
