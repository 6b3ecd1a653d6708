/**
 * Python 2's `>` on the values a classifier's `finished_on` can hold: strings compare
 * character by character (a proper prefix is smaller), and `None` is smaller than every string.
 */
module PyOrder {
  import opened Wrappers

  /** `a < b` on Python strings. */
  predicate StrLess(a: string, b: string)
    decreases |a|
  {
    if |a| == 0 then |b| > 0
    else if |b| == 0 then false
    else if a[0] != b[0] then a[0] < b[0]
    else StrLess(a[1..], b[1..])
  }

  lemma {:induction false} StrLessIrreflexive(a: string)
    ensures !StrLess(a, a)
    decreases |a|
  {
    if |a| > 0 {
      StrLessIrreflexive(a[1..]);
    }
  }

  lemma {:induction false} StrLessTransitive(a: string, b: string, c: string)
    requires StrLess(a, b) && StrLess(b, c)
    ensures StrLess(a, c)
    decreases |a|
  {
    if |a| > 0 && a[0] == b[0] && b[0] == c[0] {
      StrLessTransitive(a[1..], b[1..], c[1..]);
    }
  }

  /** Any two strings are equal or ordered one way. */
  lemma {:induction false} StrLessTotal(a: string, b: string)
    ensures a == b || StrLess(a, b) || StrLess(b, a)
    decreases |a|
  {
    if |a| > 0 && |b| > 0 && a[0] == b[0] {
      StrLessTotal(a[1..], b[1..]);
      if a[1..] == b[1..] {
        assert a == [a[0]] + a[1..] && b == [b[0]] + b[1..];
      }
    }
  }

  lemma StrLessAsymmetric(a: string, b: string)
    requires StrLess(a, b)
    ensures !StrLess(b, a)
  {
    if StrLess(b, a) {
      StrLessTransitive(a, b, a);
      StrLessIrreflexive(a);
    }
  }

  /** `x < y` for two values that are each `None` or a string. */
  predicate PyLess(x: Option<string>, y: Option<string>) {
    match (x, y)
    case (None, None) => false
    case (None, Some(_)) => true
    case (Some(_), None) => false
    case (Some(a), Some(b)) => StrLess(a, b)
  }

  lemma PyLessIrreflexive(x: Option<string>)
    ensures !PyLess(x, x)
  {
    if x.Some? {
      StrLessIrreflexive(x.value);
    }
  }

  lemma PyLessTransitive(x: Option<string>, y: Option<string>, z: Option<string>)
    requires PyLess(x, y) && PyLess(y, z)
    ensures PyLess(x, z)
  {
    if x.Some? {
      StrLessTransitive(x.value, y.value, z.value);
    }
  }

  lemma PyLessTotal(x: Option<string>, y: Option<string>)
    ensures x == y || PyLess(x, y) || PyLess(y, x)
  {
    if x.Some? && y.Some? {
      StrLessTotal(x.value, y.value);
    }
  }
}
