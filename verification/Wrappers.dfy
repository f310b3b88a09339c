/** The one shared value type: an optional column or result. */
module Wrappers {
  datatype Option<+T> = None | Some(value: T)

  lemma SmallerSet<T>(a: set<T>, b: set<T>)
    requires a <= b
    ensures |a| <= |b| && (a != b ==> |a| < |b|)
  {
    assert b == a + (b - a);
    if a != b { var x :| x in b - a; assert |b - a| > 0; }
  }
}
