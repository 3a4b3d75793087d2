/** The BB84 protocol engine: for each particle, Eve may intercept and resend it,
    then Bob measures what reaches him.

    All randomness is explicit. `rand(k)` is the k-th value the shared generator
    `np.random.rand()` returns during the run, and draws are counted from 0 at the
    start of the run. `eveOutcome(i)` and `bobOutcome(i)` are what the simulator
    reports for Eve's and Bob's measurement of particle i when that outcome is
    not fixed by the state. */
module Protocol {
  import opened Qubits
  import opened Eavesdropping

  /** The caller's inputs to one run. */
  datatype Setup = Setup(aliceBits: seq<Bit>, aliceBases: seq<Basis>, bobBases: seq<Basis>,
                         noise: Noise, interceptFraction: real, eveStrategy: string)
  {
    predicate WellFormed()
    {
      |aliceBases| == |aliceBits| && |bobBases| == |aliceBits|
    }
  }

  /** The random inputs of one run. */
  datatype Sources = Sources(rand: nat -> real, eveOutcome: nat -> Bit, bobOutcome: nat -> Bit)

  /** What happens to one particle: Bob's bit, whether Eve intercepted, the generator position after it. */
  datatype Step = Step(bobBit: Bit, intercepted: bool, next: nat)

  /** The engine's output on a prefix of the particles, with the number of draws made. */
  datatype Trace = Trace(bobResults: seq<Bit>, eveFlags: seq<bool>, drawsUsed: nat)

  /** Eve's interception of particle i, were she to intercept it with the generator at `pos`. */
  function EveAt(s: Setup, src: Sources, i: nat, pos: nat): Interception
    requires s.WellFormed() && i < |s.aliceBits|
  {
    InterceptResendModel(s.eveStrategy).Intercept(s.aliceBits[i], s.aliceBases[i], s.noise,
                                                  src.rand, pos, src.eveOutcome(i))
  }

  /** Particle i with the generator at `pos`. The interception draw is made only
      when the fraction is positive. */
  function Transmit(s: Setup, src: Sources, i: nat, pos: nat): Step
    requires s.WellFormed() && i < |s.aliceBits|
  {
    if s.interceptFraction > 0.0 && src.rand(pos) < s.interceptFraction then
      var e := EveAt(s, src, i, pos + 1);
      Step(MeasureCircuit(e.sent, s.bobBases[i], s.noise, src.bobOutcome(i)), true, e.next)
    else
      var qc := PrepareCircuit(s.aliceBits[i], s.aliceBases[i]);
      Step(MeasureCircuit(qc, s.bobBases[i], s.noise, src.bobOutcome(i)), false,
           if s.interceptFraction > 0.0 then pos + 1 else pos)
  }

  /** What one transmission does: Eve intercepts exactly when the fraction is
      positive and the draw falls below it; the generator advances by that draw and
      by Eve's basis draw under 'random'; under noise Bob gets the noisy outcome,
      and without noise, on a particle Eve left alone, Alice's bit when he used her
      basis and the simulator's outcome otherwise. */
  lemma TransmitFacts(s: Setup, src: Sources, i: nat, pos: nat)
    requires s.WellFormed() && i < |s.aliceBits|
    ensures var st := Transmit(s, src, i, pos);
            && (st.intercepted <==> s.interceptFraction > 0.0 && src.rand(pos) < s.interceptFraction)
            && st.next == (if s.interceptFraction > 0.0 then pos + 1 else pos)
                          + (if st.intercepted && s.eveStrategy == "random" then 1 else 0)
            && (s.noise == Noisy ==> st.bobBit == src.bobOutcome(i))
            && (s.noise == Ideal && !st.intercepted ==>
                  st.bobBit == if s.bobBases[i] == s.aliceBases[i] then s.aliceBits[i] else src.bobOutcome(i))
  {
    MeasurePrepared(s.aliceBits[i], s.aliceBases[i], s.bobBases[i], src.bobOutcome(i));
  }

  /** Particle i as the code is written: `_measure_circuit` never hands the noise
      model to the simulator. Bob's measurement is the as-written one; Eve's goes
      through the same function, so by `AsWrittenIsIdeal` it is the noiseless one. */
  function TransmitAsWritten(s: Setup, src: Sources, i: nat, pos: nat): (st: Step)
    requires s.WellFormed() && i < |s.aliceBits|
    ensures st == Transmit(s.(noise := Ideal), src, i, pos)
  {
    if s.interceptFraction > 0.0 && src.rand(pos) < s.interceptFraction then
      var e := InterceptResendModel(s.eveStrategy).Intercept(s.aliceBits[i], s.aliceBases[i], Ideal,
                                                             src.rand, pos + 1, src.eveOutcome(i));
      AsWrittenIsIdeal(e.sent, s.bobBases[i], s.noise, src.bobOutcome(i));
      Step(MeasureCircuitAsWritten(e.sent, s.bobBases[i], s.noise, src.bobOutcome(i)), true, e.next)
    else
      var qc := PrepareCircuit(s.aliceBits[i], s.aliceBases[i]);
      AsWrittenIsIdeal(qc, s.bobBases[i], s.noise, src.bobOutcome(i));
      Step(MeasureCircuitAsWritten(qc, s.bobBases[i], s.noise, src.bobOutcome(i)), false,
           if s.interceptFraction > 0.0 then pos + 1 else pos)
  }

  /** The engine run on the first k particles, in index order. */
  function Run(s: Setup, src: Sources, k: nat): (t: Trace)
    requires s.WellFormed() && k <= |s.aliceBits|
    ensures |t.bobResults| == k && |t.eveFlags| == k
    decreases k
  {
    if k == 0 then Trace([], [], 0)
    else
      var p := Run(s, src, k - 1);
      var st := Transmit(s, src, k - 1, p.drawsUsed);
      Trace(p.bobResults + [st.bobBit], p.eveFlags + [st.intercepted], st.next)
  }

  /** The engine as the code is written, on the first k particles. */
  function RunAsWritten(s: Setup, src: Sources, k: nat): (t: Trace)
    requires s.WellFormed() && k <= |s.aliceBits|
    ensures |t.bobResults| == k && |t.eveFlags| == k
    decreases k
  {
    if k == 0 then Trace([], [], 0)
    else
      var p := RunAsWritten(s, src, k - 1);
      var st := TransmitAsWritten(s, src, k - 1, p.drawsUsed);
      Trace(p.bobResults + [st.bobBit], p.eveFlags + [st.intercepted], st.next)
  }

  /** As written, a run with a noise model is the noiseless run: the noise model
      never reaches an outcome. */
  lemma {:induction false} RunAsWrittenIgnoresNoise(s: Setup, src: Sources, k: nat)
    requires s.WellFormed() && k <= |s.aliceBits|
    ensures RunAsWritten(s, src, k) == Run(s.(noise := Ideal), src, k)
  {
    if k > 0 {
      RunAsWrittenIgnoresNoise(s, src, k - 1);
      var p := RunAsWritten(s, src, k - 1);
      assert TransmitAsWritten(s, src, k - 1, p.drawsUsed) == Transmit(s.(noise := Ideal), src, k - 1, p.drawsUsed);
    }
  }

  /** The discrepancy at engine level: a 1 sent and measured in Z under a noise
      model whose simulator reports 0. The corrected engine returns the noisy
      outcome 0; the code as written returns 1. */
  lemma NoiseLostAsWritten(src: Sources)
    requires src.bobOutcome(0) == 0
    ensures var s := Setup([1], [Z], [Z], Noisy, 0.0, "random");
            && Run(s, src, 1).bobResults == [0]
            && RunAsWritten(s, src, 1).bobResults == [1]
  {
    var s := Setup([1], [Z], [Z], Noisy, 0.0, "random");
    assert Run(s, src, 1).bobResults == [Transmit(s, src, 0, 0).bobBit];
    assert RunAsWritten(s, src, 1).bobResults == [TransmitAsWritten(s, src, 0, 0).bobBit];
  }

  /** One pass of the engine's loop body: particle i with the generator at `pos`. */
  method TransmitParticle(s: Setup, eve: InterceptResendModel, src: Sources, i: nat, pos: nat)
    returns (bobBit: Bit, intercepted: bool, next: nat)
    requires s.WellFormed() && i < |s.aliceBits|
    requires eve == InterceptResendModel(s.eveStrategy)
    ensures Step(bobBit, intercepted, next) == Transmit(s, src, i, pos)
  {
    next := pos;
    intercepted := false;
    if s.interceptFraction > 0.0 {
      intercepted := src.rand(next) < s.interceptFraction;
      next := next + 1;
    }
    if intercepted {
      var e := eve.Intercept(s.aliceBits[i], s.aliceBases[i], s.noise, src.rand, next, src.eveOutcome(i));
      next := e.next;
      bobBit := MeasureCircuit(e.sent, s.bobBases[i], s.noise, src.bobOutcome(i));
    } else {
      var qc := PrepareCircuit(s.aliceBits[i], s.aliceBases[i]);
      bobBit := MeasureCircuit(qc, s.bobBases[i], s.noise, src.bobOutcome(i));
    }
  }

  method RunBB84(aliceBits: seq<Bit>, aliceBases: seq<Basis>, bobBases: seq<Basis>, noise: Noise,
                 interceptFraction: real, eveStrategy: string, src: Sources)
    returns (bobResults: seq<Bit>, eveFlags: seq<bool>, drawsUsed: nat)
    requires |aliceBases| == |aliceBits| && |bobBases| == |aliceBits|
    ensures Trace(bobResults, eveFlags, drawsUsed)
         == Run(Setup(aliceBits, aliceBases, bobBases, noise, interceptFraction, eveStrategy), src, |aliceBits|)
  {
    var s := Setup(aliceBits, aliceBases, bobBases, noise, interceptFraction, eveStrategy);
    var n := |aliceBits|;
    bobResults := [];
    eveFlags := seq(n, _ => false);
    var eve := InterceptResendModel(eveStrategy);
    drawsUsed := 0;
    for i := 0 to n
      invariant |eveFlags| == n
      invariant bobResults == Run(s, src, i).bobResults
      invariant eveFlags[..i] == Run(s, src, i).eveFlags
      invariant drawsUsed == Run(s, src, i).drawsUsed
      invariant forall j :: i <= j < n ==> !eveFlags[j]
    {
      var bobBit, intercepted;
      bobBit, intercepted, drawsUsed := TransmitParticle(s, eve, src, i, drawsUsed);
      RunSucc(s, src, i, Step(bobBit, intercepted, drawsUsed));
      bobResults := bobResults + [bobBit];
      if intercepted {
        eveFlags := eveFlags[i := true];
      }
      assert eveFlags[..i + 1] == eveFlags[..i] + [intercepted];
    }
    assert eveFlags[..n] == eveFlags;
  }

  /** One more particle appends its step to the run. */
  lemma RunSucc(s: Setup, src: Sources, i: nat, st: Step)
    requires s.WellFormed() && i < |s.aliceBits|
    requires st == Transmit(s, src, i, Run(s, src, i).drawsUsed)
    ensures Run(s, src, i + 1) == Trace(Run(s, src, i).bobResults + [st.bobBit],
                                        Run(s, src, i).eveFlags + [st.intercepted], st.next)
  {
  }

  /** Running more particles only extends the output. */
  lemma {:induction false} RunExtends(s: Setup, src: Sources, k: nat, m: nat)
    requires s.WellFormed() && k <= m <= |s.aliceBits|
    ensures Run(s, src, k).bobResults == Run(s, src, m).bobResults[..k]
    ensures Run(s, src, k).eveFlags == Run(s, src, m).eveFlags[..k]
    ensures Run(s, src, k).drawsUsed <= Run(s, src, m).drawsUsed
    decreases m - k
  {
    if k < m {
      RunExtends(s, src, k, m - 1);
      var p := Run(s, src, m - 1);
      assert Run(s, src, m).bobResults[..m - 1] == p.bobResults;
      assert Run(s, src, m).eveFlags[..m - 1] == p.eveFlags;
      assert Run(s, src, m).bobResults[..k] == p.bobResults[..k];
      assert Run(s, src, m).eveFlags[..k] == p.eveFlags[..k];
    }
  }

  /** Index i of the full run is the transmission of particle i with the
      generator where the first i particles left it. */
  lemma RunAt(s: Setup, src: Sources, i: nat)
    requires s.WellFormed() && i < |s.aliceBits|
    ensures var t := Run(s, src, |s.aliceBits|);
            var st := Transmit(s, src, i, Run(s, src, i).drawsUsed);
            t.bobResults[i] == st.bobBit && t.eveFlags[i] == st.intercepted
  {
    RunExtends(s, src, i + 1, |s.aliceBits|);
    var t := Run(s, src, |s.aliceBits|);
    var q := Run(s, src, i + 1);
    var st := Transmit(s, src, i, Run(s, src, i).drawsUsed);
    assert q.bobResults[i] == st.bobBit && q.eveFlags[i] == st.intercepted;
    assert t.bobResults[i] == t.bobResults[..i + 1][i];
    assert t.eveFlags[i] == t.eveFlags[..i + 1][i];
  }

  /** eveFlags[i] is set exactly when the fraction is positive and the draw made
      for particle i falls below it. */
  lemma FlagMeansDrawBelowFraction(s: Setup, src: Sources, i: nat)
    requires s.WellFormed() && i < |s.aliceBits|
    ensures Run(s, src, |s.aliceBits|).eveFlags[i]
        <==> s.interceptFraction > 0.0 && src.rand(Run(s, src, i).drawsUsed) < s.interceptFraction
  {
    RunAt(s, src, i);
  }

  /** With a fraction of 0 or less no particle is intercepted and the generator is never drawn from. */
  lemma {:induction false} DisabledNeverIntercepts(s: Setup, src: Sources, k: nat)
    requires s.WellFormed() && k <= |s.aliceBits|
    requires s.interceptFraction <= 0.0
    ensures forall i :: 0 <= i < k ==> !Run(s, src, k).eveFlags[i]
    ensures Run(s, src, k).drawsUsed == 0
  {
    if k > 0 {
      DisabledNeverIntercepts(s, src, k - 1);
    }
  }

  /** With a fraction of 1 or more every particle is intercepted, since every draw lies in [0, 1). */
  lemma {:induction false} CertainAlwaysIntercepts(s: Setup, src: Sources, k: nat)
    requires s.WellFormed() && k <= |s.aliceBits|
    requires s.interceptFraction >= 1.0
    requires forall d :: 0.0 <= src.rand(d) < 1.0
    ensures forall i :: 0 <= i < k ==> Run(s, src, k).eveFlags[i]
  {
    if k > 0 {
      CertainAlwaysIntercepts(s, src, k - 1);
      var p := Run(s, src, k - 1);
      var st := Transmit(s, src, k - 1, p.drawsUsed);
      assert src.rand(p.drawsUsed) < s.interceptFraction;
      assert Run(s, src, k).eveFlags == p.eveFlags + [st.intercepted];
    }
  }

  function CountTrue(flags: seq<bool>): (c: nat)
    ensures c <= |flags|
  {
    if flags == [] then 0 else CountTrue(flags[..|flags| - 1]) + (if flags[|flags| - 1] then 1 else 0)
  }

  /** The generator is drawn once per particle when the fraction is positive, plus
      once more per intercepted particle under the 'random' strategy. */
  lemma {:induction false} DrawsConsumed(s: Setup, src: Sources, k: nat)
    requires s.WellFormed() && k <= |s.aliceBits|
    ensures var t := Run(s, src, k);
            t.drawsUsed == if s.interceptFraction > 0.0
                           then k + (if s.eveStrategy == "random" then CountTrue(t.eveFlags) else 0)
                           else 0
  {
    if k > 0 {
      DrawsConsumed(s, src, k - 1);
      var t := Run(s, src, k);
      assert t.eveFlags[..k - 1] == Run(s, src, k - 1).eveFlags;
    }
  }

  /** On a particle Eve leaves alone, without noise, Bob reads Alice's bit when his
      basis is hers, and the simulator's outcome, independent of Alice's bit, when not. */
  lemma UninterceptedMeasurement(s: Setup, src: Sources, i: nat)
    requires s.WellFormed() && i < |s.aliceBits|
    requires s.noise == Ideal
    requires !Run(s, src, |s.aliceBits|).eveFlags[i]
    ensures Run(s, src, |s.aliceBits|).bobResults[i]
         == if s.bobBases[i] == s.aliceBases[i] then s.aliceBits[i] else src.bobOutcome(i)
  {
    RunAt(s, src, i);
    MeasurePrepared(s.aliceBits[i], s.aliceBases[i], s.bobBases[i], src.bobOutcome(i));
  }

  /** On an intercepted particle Bob measures the qubit Eve resent, never Alice's:
      it encodes Eve's measured bit in Eve's basis, so without noise Bob reads Eve's
      bit when he shares her basis. Eve's basis is Z under any strategy but 'random',
      and she learns Alice's bit exactly when she guessed Alice's basis. */
  lemma InterceptedMeasurement(s: Setup, src: Sources, i: nat)
    requires s.WellFormed() && i < |s.aliceBits|
    requires Run(s, src, |s.aliceBits|).eveFlags[i]
    ensures var e := EveAt(s, src, i, Run(s, src, i).drawsUsed + 1);
            var bob := Run(s, src, |s.aliceBits|).bobResults[i];
            && bob == MeasureCircuit(e.sent, s.bobBases[i], s.noise, src.bobOutcome(i))
            && Evolve(e.sent) == Encoding(e.measured, e.eveBasis)
            && (s.eveStrategy != "random" ==> e.eveBasis == Z)
            && (s.noise == Ideal ==>
                  && e.measured == (if e.eveBasis == s.aliceBases[i] then s.aliceBits[i] else src.eveOutcome(i))
                  && bob == (if s.bobBases[i] == e.eveBasis then e.measured else src.bobOutcome(i)))
  {
    RunAt(s, src, i);
    var e := EveAt(s, src, i, Run(s, src, i).drawsUsed + 1);
    MeasureEncoded(e.sent, e.measured, e.eveBasis, s.bobBases[i], src.bobOutcome(i));
  }
}
