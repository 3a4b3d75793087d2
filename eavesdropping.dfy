/** Eve's intercept-resend attack on one particle.

    `rand(k)` stands for the k-th value the shared generator `np.random.rand()`
    returns during a run; `pos` is how many values have been drawn so far. */
module Eavesdropping {
  import opened Qubits

  /** What one interception produces: the circuit Eve sends on to Bob, the basis
      she measured in, the bit she measured, and the generator position after it. */
  datatype Interception = Interception(sent: Circuit, eveBasis: Basis, measured: Bit, next: nat)

  /** The intercept-resend adversary, configured once with a strategy name. */
  datatype InterceptResendModel = InterceptResendModel(strategy: string)
  {
    /** Eve picks her basis, measures Alice's qubit in it (through the noise model,
        if any), and re-prepares the bit she saw in that same basis. Only the
        'random' strategy draws from the generator; every other name means Z. */
    function Intercept(aliceBit: Bit, aliceBasis: Basis, noise: Noise,
                       rand: nat -> real, pos: nat, shot: Bit): (r: Interception)
      ensures r.next == if strategy == "random" then pos + 1 else pos
      ensures strategy != "random" ==> r.eveBasis == Z
      ensures strategy == "random" ==> (r.eveBasis == Z <==> rand(pos) < 0.5)
      ensures Evolve(r.sent) == Encoding(r.measured, r.eveBasis)
      ensures noise == Ideal ==>
                r.measured == if r.eveBasis == aliceBasis then aliceBit else shot
      ensures noise == Noisy ==> r.measured == shot
    {
      var random := strategy == "random";
      var eveBasis := if random then (if rand(pos) < 0.5 then Z else X) else Z;
      var qc := PrepareCircuit(aliceBit, aliceBasis);
      var measured := MeasureCircuit(qc, eveBasis, noise, shot);
      MeasurePrepared(aliceBit, aliceBasis, eveBasis, shot);
      // Eve's resent qubit is built exactly as Alice's preparation builds one.
      var sent := PrepareCircuit(measured, eveBasis);
      Interception(sent, eveBasis, measured, if random then pos + 1 else pos)
    }
  }

  /** When Eve guesses Alice's basis, she learns Alice's bit and the qubit she
      resends is exactly the one Alice prepared: the interception leaves no trace. */
  lemma MatchingGuessResendsAlicesState(eve: InterceptResendModel, aliceBit: Bit, aliceBasis: Basis,
                                        rand: nat -> real, pos: nat, shot: Bit)
    requires eve.Intercept(aliceBit, aliceBasis, Ideal, rand, pos, shot).eveBasis == aliceBasis
    ensures eve.Intercept(aliceBit, aliceBasis, Ideal, rand, pos, shot).measured == aliceBit
    ensures Evolve(eve.Intercept(aliceBit, aliceBasis, Ideal, rand, pos, shot).sent)
         == Evolve(PrepareCircuit(aliceBit, aliceBasis))
  {
  }
}
