/** Properties of a whole exchange: the engine's output fed through sifting and the QBER. */
module EndToEnd {
  import opened Qubits
  import opened Sifting
  import opened Protocol

  /** Without noise and with eavesdropping disabled, the sifted keys agree at every
      position, so the QBER is exactly 0, whatever bases Alice and Bob chose and
      whatever the random sources produced. */
  lemma NoEavesdropperZeroQber(s: Setup, src: Sources, aliceSifted: seq<Bit>, bobSifted: seq<Bit>, positions: seq<nat>)
    requires s.WellFormed() && s.noise == Ideal && s.interceptFraction <= 0.0
    requires IsSift(s.aliceBits, s.aliceBases, Run(s, src, |s.aliceBits|).bobResults, s.bobBases,
                    aliceSifted, bobSifted, positions)
    ensures ComputeQber(aliceSifted, bobSifted) == 0.0
  {
    DisabledNeverIntercepts(s, src, |s.aliceBits|);
    forall k | 0 <= k < |positions| ensures aliceSifted[k] == bobSifted[k] {
      UninterceptedMeasurement(s, src, positions[k]);
    }
  }

  /** As the code is written, a noise model never reaches the QBER: with eavesdropping
      disabled, the sifted keys of the as-written run agree everywhere even when a
      noise model was supplied. */
  lemma AsWrittenZeroQberDespiteNoise(s: Setup, src: Sources, aliceSifted: seq<Bit>, bobSifted: seq<Bit>, positions: seq<nat>)
    requires s.WellFormed() && s.interceptFraction <= 0.0
    requires IsSift(s.aliceBits, s.aliceBases, RunAsWritten(s, src, |s.aliceBits|).bobResults, s.bobBases,
                    aliceSifted, bobSifted, positions)
    ensures ComputeQber(aliceSifted, bobSifted) == 0.0
  {
    RunAsWrittenIgnoresNoise(s, src, |s.aliceBits|);
    NoEavesdropperZeroQber(s.(noise := Ideal), src, aliceSifted, bobSifted, positions);
  }

  /** When Bob uses Alice's basis at every position, sifting keeps every position
      in order and the sifted keys are the full bit sequences. */
  lemma MatchedBasesSiftEverything(aliceBits: seq<Bit>, bases: seq<Basis>, bobBits: seq<Bit>,
                                   aliceSifted: seq<Bit>, bobSifted: seq<Bit>, positions: seq<nat>)
    requires |aliceBits| == |bases| == |bobBits|
    requires IsSift(aliceBits, bases, bobBits, bases, aliceSifted, bobSifted, positions)
    ensures positions == seq(|bases|, i => i)
    ensures aliceSifted == aliceBits && bobSifted == bobBits
  {
    var all := seq(|bases|, i => i);
    forall i | 0 <= i < |bases| ensures i in all {
      assert all[i] == i;
    }
    assert IsSift(aliceBits, bases, bobBits, bases, aliceBits, bobBits, all);
    SiftUnique(aliceBits, bases, bobBits, bases, aliceSifted, bobSifted, positions, aliceBits, bobBits, all);
  }

  /** The exchange of tests/test_bb84.py: eight particles, Bob's bases equal to
      Alice's, no noise, no eavesdropping. All eight survive sifting and the QBER is 0. */
  method NoNoiseScenario(src: Sources) returns (siftedLength: nat, qber: real)
    ensures siftedLength == 8 && qber == 0.0
  {
    var aliceBits: seq<Bit> := [0, 1, 1, 0, 1, 0, 1, 0];
    var bases := [Z, X, Z, X, Z, X, Z, X];
    var bobResults, eveFlags, drawsUsed := RunBB84(aliceBits, bases, bases, Ideal, 0.0, "random", src);
    var aliceSifted, bobSifted, positions := SiftKey(aliceBits, bases, bobResults, bases);
    assert |aliceSifted| == |bobSifted|;
    qber := ComputeQber(aliceSifted, bobSifted);
    NoEavesdropperZeroQber(Setup(aliceBits, bases, bases, Ideal, 0.0, "random"), src,
                           aliceSifted, bobSifted, positions);
    MatchedBasesSiftEverything(aliceBits, bases, bobResults, aliceSifted, bobSifted, positions);
    siftedLength := |aliceSifted|;
  }
}
