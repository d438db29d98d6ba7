/**
 * Comparison of provider certificates. A certificate is a byte array, taken
 * here as its contents (the code below never mutates one). Certificates are
 * ordered first by length and then by the first differing signed byte; two
 * lists of certificates match when they are equal position by position.
 */
module FontSignatures {
  import opened JavaInt

  /**
   * The difference of the first differing bytes of two arrays of equal
   * length, or 0 when there is none.
   */
  function FirstDifference(l: seq<Byte>, r: seq<Byte>): (d: int)
    requires |l| == |r|
    ensures d == 0 <==> l == r
    ensures -255 <= d <= 255
    decreases |l|
  {
    if |l| == 0 then 0
    else if l[0] != r[0] then l[0] as int - r[0] as int
    else
      assert l == [l[0]] + l[1..] && r == [r[0]] + r[1..];
      FirstDifference(l[1..], r[1..])
  }

  /** The certificate order as a Java comparator value: negative, zero or positive. */
  function SignatureOrder(l: seq<Byte>, r: seq<Byte>): (c: int)
    ensures |l| < |r| ==> c < 0
    ensures |l| > |r| ==> c > 0
    ensures c == 0 <==> l == r
  {
    if |l| != |r| then |l| - |r| else FirstDifference(l, r)
  }

  /**
   * The comparator: a shorter array sorts first (by the length difference);
   * arrays of equal length compare by the signed difference of their first
   * differing bytes, and equal arrays compare as 0.
   */
  method Compare(l: seq<Byte>, r: seq<Byte>) returns (c: int)
    ensures c == SignatureOrder(l, r)
    ensures |l| != |r| ==> c == |l| - |r|
    ensures |l| == |r| && l != r ==>
      exists k :: 0 <= k < |l| && l[..k] == r[..k] && l[k] != r[k] && c == l[k] as int - r[k] as int
    ensures c == 0 <==> l == r
  {
    if |l| != |r| {
      return |l| - |r|;
    }
    var i := 0;
    while i < |l|
      invariant 0 <= i <= |l|
      invariant l[..i] == r[..i]
      invariant FirstDifference(l, r) == FirstDifference(l[i..], r[i..])
    {
      if l[i] != r[i] {
        return l[i] as int - r[i] as int;
      }
      assert l[i..][1..] == l[i + 1..] && r[i..][1..] == r[i + 1..];
      assert l[..i + 1] == l[..i] + [l[i]] && r[..i + 1] == r[..i] + [r[i]];
      i := i + 1;
    }
    assert l == l[..i] && r == r[..i];
    return 0;
  }

  /** Swapping the arguments negates the order. */
  lemma {:induction false} FirstDifferenceAntisymmetric(l: seq<Byte>, r: seq<Byte>)
    requires |l| == |r|
    ensures FirstDifference(l, r) == -FirstDifference(r, l)
    decreases |l|
  {
    if |l| > 0 && l[0] == r[0] {
      FirstDifferenceAntisymmetric(l[1..], r[1..]);
    }
  }

  lemma SignatureOrderAntisymmetric(l: seq<Byte>, r: seq<Byte>)
    ensures SignatureOrder(l, r) == -SignatureOrder(r, l)
  {
    if |l| == |r| {
      FirstDifferenceAntisymmetric(l, r);
    }
  }

  lemma {:induction false} FirstDifferenceTransitive(a: seq<Byte>, b: seq<Byte>, c: seq<Byte>)
    requires |a| == |b| == |c|
    requires FirstDifference(a, b) <= 0 && FirstDifference(b, c) <= 0
    ensures FirstDifference(a, c) <= 0
    decreases |a|
  {
    if |a| > 0 && a[0] == b[0] && b[0] == c[0] {
      FirstDifferenceTransitive(a[1..], b[1..], c[1..]);
    }
  }

  /** "Sorts no later than" is transitive, so the comparator is a total order. */
  lemma SignatureOrderTransitive(a: seq<Byte>, b: seq<Byte>, c: seq<Byte>)
    requires SignatureOrder(a, b) <= 0 && SignatureOrder(b, c) <= 0
    ensures SignatureOrder(a, c) <= 0
  {
    if |a| == |b| == |c| {
      FirstDifferenceTransitive(a, b, c);
    }
  }

  /** A list sorted by the certificate order. */
  ghost predicate SortedBySignature(s: seq<seq<Byte>>) {
    forall i, j :: 0 <= i < j < |s| ==> SignatureOrder(s[i], s[j]) <= 0
  }

  /** Two sorted lists holding the same certificates start with the same one. */
  lemma SortedPermutationsSameHead(a: seq<seq<Byte>>, b: seq<seq<Byte>>)
    requires SortedBySignature(a) && SortedBySignature(b)
    requires multiset(a) == multiset(b) && |a| > 0
    ensures |b| > 0 && a[0] == b[0]
  {
    assert a[0] in multiset(b);
    var j :| 0 <= j < |b| && b[j] == a[0];
    assert b[0] in multiset(a);
    var k :| 0 <= k < |a| && a[k] == b[0];
    assert SignatureOrder(a[0], b[0]) <= 0 by {
      if k > 0 { assert SignatureOrder(a[0], a[k]) <= 0; }
    }
    assert SignatureOrder(b[0], a[0]) <= 0 by {
      if j > 0 { assert SignatureOrder(b[0], b[j]) <= 0; }
    }
    SignatureOrderAntisymmetric(a[0], b[0]);
  }

  lemma SortedTail(a: seq<seq<Byte>>)
    requires SortedBySignature(a) && |a| > 0
    ensures SortedBySignature(a[1..])
  {
    forall i, i' | 0 <= i < i' < |a| - 1 ensures SignatureOrder(a[1..][i], a[1..][i']) <= 0 {
      assert a[1..][i] == a[i + 1] && a[1..][i'] == a[i' + 1];
    }
  }

  lemma SameTailCertificates(a: seq<seq<Byte>>, b: seq<seq<Byte>>)
    requires multiset(a) == multiset(b) && |a| > 0 && |b| > 0 && a[0] == b[0]
    ensures multiset(a[1..]) == multiset(b[1..])
  {
    assert a == [a[0]] + a[1..] && b == [b[0]] + b[1..];
    assert multiset(a[1..]) == multiset(a) - multiset{a[0]};
    assert multiset(b[1..]) == multiset(b) - multiset{b[0]};
  }

  /** Two sorted lists holding the same certificates are the same list. */
  lemma {:induction false} SortedPermutationsEqual(a: seq<seq<Byte>>, b: seq<seq<Byte>>)
    requires SortedBySignature(a) && SortedBySignature(b)
    requires multiset(a) == multiset(b)
    ensures a == b
    decreases |a|
  {
    assert |a| == |multiset(a)| == |multiset(b)| == |b|;
    if |a| > 0 {
      SortedPermutationsSameHead(a, b);
      SortedTail(a);
      SortedTail(b);
      SameTailCertificates(a, b);
      SortedPermutationsEqual(a[1..], b[1..]);
      assert a == [a[0]] + a[1..] && b == [b[0]] + b[1..];
    }
  }

  /**
   * Whether two certificate lists match: equal sizes and equal arrays at
   * every position.
   */
  method EqualsByteArrayList(signatures: seq<seq<Byte>>, requestSignatures: seq<seq<Byte>>) returns (eq: bool)
    ensures |signatures| != |requestSignatures| ==> !eq
    ensures eq <==> signatures == requestSignatures
  {
    if |signatures| != |requestSignatures| {
      return false;
    }
    var i := 0;
    while i < |signatures|
      invariant 0 <= i <= |signatures|
      invariant signatures[..i] == requestSignatures[..i]
    {
      if signatures[i] != requestSignatures[i] {
        return false;
      }
      assert signatures[..i + 1] == signatures[..i] + [signatures[i]];
      assert requestSignatures[..i + 1] == requestSignatures[..i] + [requestSignatures[i]];
      i := i + 1;
    }
    assert signatures == signatures[..i] && requestSignatures == requestSignatures[..i];
    return true;
  }

  /**
   * Once both lists are sorted by the certificate order, as the provider
   * check does before comparing them, they match exactly when they hold the
   * same certificates, whatever order they arrived in.
   */
  lemma SortedListsMatchIffSameCertificates(a: seq<seq<Byte>>, b: seq<seq<Byte>>)
    requires SortedBySignature(a) && SortedBySignature(b)
    ensures a == b <==> multiset(a) == multiset(b)
  {
    if multiset(a) == multiset(b) {
      SortedPermutationsEqual(a, b);
    }
  }
}
