/** Python's order on strings: by code point, a prefix first. */
module Ordering {

  predicate StringLeq(a: string, b: string) {
    if a == "" then true
    else if b == "" then false
    else if a[0] != b[0] then a[0] < b[0]
    else StringLeq(a[1..], b[1..])
  }

  /** Where the strings differ first, the smaller code point decides; without a difference, the shorter one comes first. */
  lemma {:induction false} FirstDifferenceDecides(a: string, b: string, k: nat)
    requires k <= |a| && k <= |b| && a[..k] == b[..k] && (k < |a| && k < |b| ==> a[k] != b[k])
    ensures StringLeq(a, b) <==> if k < |a| && k < |b| then a[k] < b[k] else |a| <= |b|
    decreases k
  {
    if k > 0 {
      assert a[0] == a[..k][0] == b[..k][0] == b[0];
      assert a[1..][..k - 1] == a[..k][1..] && b[1..][..k - 1] == b[..k][1..];
      FirstDifferenceDecides(a[1..], b[1..], k - 1);
    }
  }

  lemma {:induction false} StringTotal(a: string, b: string)
    ensures StringLeq(a, b) || StringLeq(b, a)
    ensures StringLeq(a, b) && StringLeq(b, a) ==> a == b
    decreases |a|
  {
    if a != "" && b != "" && a[0] == b[0] {
      StringTotal(a[1..], b[1..]);
      assert a == [a[0]] + a[1..] && b == [b[0]] + b[1..];
    }
  }

  lemma {:induction false} StringTransitive(a: string, b: string, c: string)
    requires StringLeq(a, b) && StringLeq(b, c)
    ensures StringLeq(a, c)
    decreases |a|
  {
    if a != "" && a[0] == b[0] == c[0] {
      StringTransitive(a[1..], b[1..], c[1..]);
    }
  }

  /** `sorted(names)[0]`. */
  method LeastString(names: set<string>) returns (least: string)
    requires names != {}
    ensures least in names && forall n :: n in names ==> StringLeq(least, n)
  {
    least :| least in names;
    StringTotal(least, least);
    var left := names - {least};
    while left != {}
      invariant least in names && left <= names
      invariant forall n :: n in names - left ==> StringLeq(least, n)
      decreases |left|
    {
      var n :| n in left;
      StringTotal(least, n);
      if !StringLeq(least, n) {
        forall k | k in names - left ensures StringLeq(n, k) {
          StringTransitive(n, least, k);
        }
        StringTotal(n, n);
        least := n;
      }
      left := left - {n};
    }
  }
}
