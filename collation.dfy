/**
 * The order the database uses for `MAX` over text columns, taken here as the
 * lexicographic order on code points (the "C" collation), and SQL `MAX` of
 * two nullable values.
 */
module Collation {
  import opened Wrappers

  /** `a` sorts no later than `b`. */
  predicate TextLe(a: string, b: string)
  {
    a == [] || (b != [] && (a[0] < b[0] || (a[0] == b[0] && TextLe(a[1..], b[1..]))))
  }

  lemma {:induction false} TextLeReflexive(a: string)
    ensures TextLe(a, a)
  {
    if a != [] {
      TextLeReflexive(a[1..]);
    }
  }

  lemma {:induction false} TextLeTotal(a: string, b: string)
    ensures TextLe(a, b) || TextLe(b, a)
  {
    if a != [] && b != [] && a[0] == b[0] {
      TextLeTotal(a[1..], b[1..]);
    }
  }

  lemma {:induction false} TextLeTransitive(a: string, b: string, c: string)
    requires TextLe(a, b) && TextLe(b, c)
    ensures TextLe(a, c)
  {
    if a != [] && b != [] && c != [] && a[0] == b[0] && b[0] == c[0] {
      TextLeTransitive(a[1..], b[1..], c[1..]);
    }
  }

  lemma {:induction false} TextLeAntisymmetric(a: string, b: string)
    requires TextLe(a, b) && TextLe(b, a)
    ensures a == b
  {
    if a != [] && b != [] {
      TextLeAntisymmetric(a[1..], b[1..]);
      assert a == [a[0]] + a[1..] && b == [b[0]] + b[1..];
    }
  }

  /** SQL `MAX` of two nullable text values: nulls are ignored. */
  function Greatest(a: Str, b: Str): (m: Str)
    ensures m == a || m == b
    ensures m.None? <==> a.None? && b.None?
    ensures a.Some? ==> m.Some? && TextLe(a.value, m.value)
    ensures b.Some? ==> m.Some? && TextLe(b.value, m.value)
  {
    if a.None? then (if b.Some? then TextLeReflexive(b.value); b else b)
    else if b.None? then TextLeReflexive(a.value); a
    else
      TextLeTotal(a.value, b.value);
      TextLeReflexive(a.value);
      TextLeReflexive(b.value);
      if TextLe(a.value, b.value) then b else a
  }
}
