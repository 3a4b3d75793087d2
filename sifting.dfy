/** Basis sifting and the quantum bit error rate. */
module Sifting {
  import opened Qubits

  /** The number of positions at which the two basis sequences agree. */
  function CountMatches(aliceBases: seq<Basis>, bobBases: seq<Basis>): (c: nat)
    requires |aliceBases| == |bobBases|
    ensures c <= |aliceBases|
    ensures c == |aliceBases| <==> forall i :: 0 <= i < |aliceBases| ==> aliceBases[i] == bobBases[i]
    decreases |aliceBases|
  {
    if |aliceBases| == 0 then 0
    else
      var n := |aliceBases| - 1;
      CountMatches(aliceBases[..n], bobBases[..n]) + (if aliceBases[n] == bobBases[n] then 1 else 0)
  }

  /** (aliceSifted, bobSifted, positions) is the sift of the run: positions lists,
      in increasing order, exactly the indices where the bases agree, and the two
      sifted keys carry Alice's and Bob's bits at those indices. */
  ghost predicate IsSift(aliceBits: seq<Bit>, aliceBases: seq<Basis>, bobBits: seq<Bit>, bobBases: seq<Basis>,
                         aliceSifted: seq<Bit>, bobSifted: seq<Bit>, positions: seq<nat>)
    requires |aliceBits| == |aliceBases| == |bobBits| == |bobBases|
  {
    && |aliceSifted| == |positions|
    && |bobSifted| == |positions|
    && Increasing(positions)
    && (forall k :: 0 <= k < |positions| ==>
          && positions[k] < |aliceBases|
          && aliceBases[positions[k]] == bobBases[positions[k]]
          && aliceSifted[k] == aliceBits[positions[k]]
          && bobSifted[k] == bobBits[positions[k]])
    && (forall i :: 0 <= i < |aliceBases| && aliceBases[i] == bobBases[i] ==> i in positions)
  }

  method SiftKey(aliceBits: seq<Bit>, aliceBases: seq<Basis>, bobBits: seq<Bit>, bobBases: seq<Basis>)
    returns (aliceSifted: seq<Bit>, bobSifted: seq<Bit>, positions: seq<nat>)
    requires |aliceBits| == |aliceBases| == |bobBits| == |bobBases|
    ensures IsSift(aliceBits, aliceBases, bobBits, bobBases, aliceSifted, bobSifted, positions)
    ensures |positions| == CountMatches(aliceBases, bobBases)
  {
    aliceSifted, bobSifted, positions := [], [], [];
    for i := 0 to |aliceBases|
      invariant |aliceSifted| == |positions| && |bobSifted| == |positions|
      invariant |positions| == CountMatches(aliceBases[..i], bobBases[..i])
      invariant forall k, l :: 0 <= k < l < |positions| ==> positions[k] < positions[l]
      invariant forall k :: 0 <= k < |positions| ==>
                  && positions[k] < i
                  && aliceBases[positions[k]] == bobBases[positions[k]]
                  && aliceSifted[k] == aliceBits[positions[k]]
                  && bobSifted[k] == bobBits[positions[k]]
      invariant forall j :: 0 <= j < i && aliceBases[j] == bobBases[j] ==> j in positions
    {
      assert aliceBases[..i + 1][..i] == aliceBases[..i] && bobBases[..i + 1][..i] == bobBases[..i];
      assert CountMatches(aliceBases[..i + 1], bobBases[..i + 1])
          == CountMatches(aliceBases[..i], bobBases[..i]) + (if aliceBases[i] == bobBases[i] then 1 else 0);
      if aliceBases[i] == bobBases[i] {
        aliceSifted := aliceSifted + [aliceBits[i]];
        bobSifted := bobSifted + [bobBits[i]];
        positions := positions + [i];
      }
    }
    assert aliceBases[..|aliceBases|] == aliceBases && bobBases[..|bobBases|] == bobBases;
  }

  /** A sift is determined by its inputs: any two results meeting IsSift coincide. */
  lemma SiftUnique(aliceBits: seq<Bit>, aliceBases: seq<Basis>, bobBits: seq<Bit>, bobBases: seq<Basis>,
                   a1: seq<Bit>, b1: seq<Bit>, p1: seq<nat>, a2: seq<Bit>, b2: seq<Bit>, p2: seq<nat>)
    requires |aliceBits| == |aliceBases| == |bobBits| == |bobBases|
    requires IsSift(aliceBits, aliceBases, bobBits, bobBases, a1, b1, p1)
    requires IsSift(aliceBits, aliceBases, bobBits, bobBases, a2, b2, p2)
    ensures p1 == p2 && a1 == a2 && b1 == b2
  {
    forall x | x in p1 ensures x in p2 {
      var k :| 0 <= k < |p1| && p1[k] == x;
    }
    forall x | x in p2 ensures x in p1 {
      var k :| 0 <= k < |p2| && p2[k] == x;
    }
    SameEnumeration(p1, p2);
  }

  ghost predicate Increasing(p: seq<nat>)
  {
    forall k, l :: 0 <= k < l < |p| ==> p[k] < p[l]
  }

  /** Two strictly increasing sequences holding the same elements are equal. */
  lemma {:induction false} SameEnumeration(p: seq<nat>, q: seq<nat>)
    requires Increasing(p) && Increasing(q)
    requires forall x :: x in p <==> x in q
    ensures p == q
    decreases |p|
  {
    if |p| == 0 {
      if |q| > 0 {
        ElementOf(q, 0);
        assert false;
      }
    } else if |q| == 0 {
      ElementOf(p, 0);
      assert false;
    } else {
      assert p[0] == q[0] by {
        assert p[0] in q && q[0] in p;
        var i :| 0 <= i < |q| && q[i] == p[0];
        var j :| 0 <= j < |p| && p[j] == q[0];
        assert q[0] <= q[i] && p[0] <= p[j];
      }
      forall x | x in p[1..] ensures x in q[1..] {
        var j :| 1 <= j < |p| && p[j] == x;
        assert x in q;
        var i :| 0 <= i < |q| && q[i] == x;
        assert x != q[0];
      }
      forall x | x in q[1..] ensures x in p[1..] {
        var j :| 1 <= j < |q| && q[j] == x;
        assert x in p;
        var i :| 0 <= i < |p| && p[i] == x;
        assert x != p[0];
      }
      SameEnumeration(p[1..], q[1..]);
      assert p == [p[0]] + p[1..] && q == [q[0]] + q[1..];
    }
  }

  lemma ElementOf(s: seq<nat>, k: int)
    requires 0 <= k < |s|
    ensures s[k] in s
  {
  }

  /** The number of positions at which two equally long bit sequences differ. */
  function Mismatches(a: seq<Bit>, b: seq<Bit>): (m: nat)
    requires |a| == |b|
    ensures m <= |a|
    ensures m == 0 <==> forall k :: 0 <= k < |a| ==> a[k] == b[k]
    ensures m == |a| <==> forall k :: 0 <= k < |a| ==> a[k] != b[k]
    decreases |a|
  {
    if |a| == 0 then 0
    else (if a[0] != b[0] then 1 else 0) + Mismatches(a[1..], b[1..])
  }

  /** m out of n as a fraction: q * n = m, so q lies in [0, 1], and q is 0 iff m is 0 and 1 iff m is n. */
  function Fraction(m: nat, n: nat): (q: real)
    requires 0 < n && m <= n
    ensures 0.0 <= q <= 1.0
    ensures q * n as real == m as real
    ensures q == 0.0 <==> m == 0
    ensures q == 1.0 <==> m == n
  {
    var q := m as real / n as real;
    assert q * n as real == m as real;
    q
  }

  /** The quantum bit error rate of a sifted key pair: the fraction of positions
      that differ, and 0 for an empty sift (never a division by zero). */
  function ComputeQber(aliceSifted: seq<Bit>, bobSifted: seq<Bit>): (q: real)
    requires |aliceSifted| == |bobSifted|
    ensures 0.0 <= q <= 1.0
    ensures |aliceSifted| == 0 ==> q == 0.0
    ensures |aliceSifted| > 0 ==> q == Mismatches(aliceSifted, bobSifted) as real / |aliceSifted| as real
    ensures q == 0.0 <==> forall k :: 0 <= k < |aliceSifted| ==> aliceSifted[k] == bobSifted[k]
    ensures q == 1.0 <==> |aliceSifted| > 0 && forall k :: 0 <= k < |aliceSifted| ==> aliceSifted[k] != bobSifted[k]
  {
    if |aliceSifted| == 0 then 0.0
    else Fraction(Mismatches(aliceSifted, bobSifted), |aliceSifted|)
  }
}
