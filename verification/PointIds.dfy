/** Names of vector-store points.  A point's id is the UUIDv5 (section 5.5 of RFC 9562) of the
    string `document_id:index` in a fixed namespace; the string is kept here, so equality of
    names stands for equality of ids. */
module PointIds {

  /** Decimal rendering of a chunk index. */
  function Decimal(n: nat): (s: string)
    ensures s != [] && forall i :: 0 <= i < |s| ==> '0' <= s[i] <= '9'
    decreases n
  {
    var digit := ('0' as int + n % 10) as char;
    if n < 10 then [digit] else Decimal(n / 10) + [digit]
  }

  /** The number a string of digits denotes. */
  function Value(s: string): int {
    if s == [] then 0 else 10 * Value(s[..|s| - 1]) + (s[|s| - 1] as int - '0' as int)
  }

  lemma {:induction false} ValueOfDecimal(n: nat)
    ensures Value(Decimal(n)) == n
    decreases n
  {
    var s := Decimal(n);
    if n < 10 {
      assert s[..|s| - 1] == [];
    } else {
      ValueOfDecimal(n / 10);
      assert s[..|s| - 1] == Decimal(n / 10);
    }
  }

  /** No other string of digits without leading zeros denotes the number. */
  lemma {:induction false} DecimalIsPlain(n: nat)
    ensures Decimal(n)[0] == '0' ==> n == 0 && |Decimal(n)| == 1
    decreases n
  {
    if n >= 10 {
      DecimalIsPlain(n / 10);
      assert Decimal(n)[0] == Decimal(n / 10)[0];
    }
  }

  function PointName(documentId: string, index: nat): string {
    documentId + ":" + Decimal(index)
  }

  /** The ids one document's chunks get, in chunk order. */
  function PointNames(documentId: string, n: nat): (ids: seq<string>)
    ensures |ids| == n
  {
    seq(n, i requires 0 <= i < n => PointName(documentId, i))
  }

  /** The name is the document id, a colon, and the index in plain decimal. */
  lemma PointNameReads(d: string, i: nat)
    ensures |d| + 1 < |PointName(d, i)| && PointName(d, i)[..|d|] == d && PointName(d, i)[|d|] == ':'
    ensures var index := PointName(d, i)[|d| + 1..];
            && Value(index) == i && (forall k :: 0 <= k < |index| ==> '0' <= index[k] <= '9')
            && (index[0] == '0' ==> index == "0")
    ensures PointName("doc", 207) == "doc:207"
  {
    ValueOfDecimal(i);
    DecimalIsPlain(i);
    assert PointName(d, i)[|d| + 1..] == Decimal(i);
    assert Decimal(207) == Decimal(20) + ['7'] && Decimal(20) == Decimal(2) + ['0'] && Decimal(2) == ['2'];
  }

  /** Past the colon, every character comes from the index part. */
  lemma PastTheColon(d: string, x: string, k: nat)
    ensures (d + ":" + x)[|d|] == ':'
    ensures |d| < k < |d| + 1 + |x| ==> (d + ":" + x)[k] in x
  {
    if |d| < k < |d| + 1 + |x| {
      assert (d + ":" + x)[k] == x[k - |d| - 1];
    }
  }

  /** Splitting at the last colon is unambiguous when the tails have none. */
  lemma LastColonSplits(a: string, x: string, b: string, y: string)
    requires a + ":" + x == b + ":" + y
    requires ':' !in x && ':' !in y
    ensures a == b && x == y
  {
    PastTheColon(a, x, |b|);
    PastTheColon(b, y, |a|);
    assert |a + ":" + x| == |a| + 1 + |x| && |b + ":" + y| == |b| + 1 + |y|;
    assert |a| == |b|;
    assert (a + ":" + x)[..|a|] == a && (b + ":" + y)[..|b|] == b;
    assert (a + ":" + x)[|a| + 1..] == x && (b + ":" + y)[|b| + 1..] == y;
  }

  /** A point name determines the document and the chunk index, whatever characters the
      document id has: no two chunks share a point. */
  lemma PointNameInjective(d: string, i: nat, e: string, j: nat)
    ensures PointName(d, i) == PointName(e, j) <==> d == e && i == j
  {
    if PointName(d, i) == PointName(e, j) {
      LastColonSplits(d, Decimal(i), e, Decimal(j));
      ValueOfDecimal(i);
      ValueOfDecimal(j);
    }
  }
}
