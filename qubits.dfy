/** Single-qubit preparation and measurement as the BB84 engine uses them.

    The engine builds, per particle, a one-qubit circuit that applies X when the
    bit is 1 and then H when the basis is diagonal; measuring in the diagonal
    basis appends one more H before reading the qubit out. Only the gates X and H
    ever act, so the qubit is always in one of the four BB84 states, and the
    circuit's effect is computed exactly over those four states. The outcome the
    simulator reports for a state that is not a computational-basis state is
    not determined by the code, so it is an explicit input (`shot`). */
module Qubits {

  /** A bit as the engine carries it: the integer 0 or 1. */
  type Bit = b: int | 0 <= b <= 1

  /** The two bases: rectilinear ('Z') and diagonal ('X'). */
  datatype Basis = Z | X

  /** The two gates the engine ever places on its qubit. */
  datatype Gate = XGate | HGate

  /** A one-qubit circuit: its gates in the order they are applied. */
  type Circuit = seq<Gate>

  /** The four BB84 states |0>, |1>, |+>, |->, global phase dropped. */
  datatype State = Zero | One | Plus | Minus

  /** Whether the caller supplied a noise model to a measurement. */
  datatype Noise = Ideal | Noisy

  function ApplyGate(g: Gate, s: State): State
  {
    match g
    case XGate => (match s case Zero => One case One => Zero case Plus => Plus case Minus => Minus)
    case HGate => (match s case Zero => Plus case One => Minus case Plus => Zero case Minus => One)
  }

  /** The state a circuit leaves the qubit in, starting from |0>. */
  function Evolve(qc: Circuit): State
  {
    if qc == [] then Zero else ApplyGate(qc[|qc| - 1], Evolve(qc[..|qc| - 1]))
  }

  /** The BB84 encoding of a bit in a basis: the reference the circuits are checked against. */
  function Encoding(bit: Bit, basis: Basis): State
  {
    match basis
    case Z => if bit == 1 then One else Zero
    case X => if bit == 1 then Minus else Plus
  }

  /** Both gates are involutions; in particular H followed by H is the identity. */
  lemma GateInvolution(g: Gate, s: State)
    ensures ApplyGate(g, ApplyGate(g, s)) == s
  {
  }

  lemma EvolveAppend(qc: Circuit, g: Gate)
    ensures Evolve(qc + [g]) == ApplyGate(g, Evolve(qc))
  {
    assert (qc + [g])[..|qc|] == qc;
  }

  /** The encoding is faithful: distinct (bit, basis) pairs give distinct states. */
  lemma EncodingInjective(b1: Bit, p1: Basis, b2: Bit, p2: Basis)
    requires Encoding(b1, p1) == Encoding(b2, p2)
    ensures b1 == b2 && p1 == p2
  {
  }

  /** Alice's (and Eve's re-)preparation: X when the bit is 1, then H in the diagonal basis. */
  function PrepareCircuit(bit: Bit, basis: Basis): (qc: Circuit)
    ensures Evolve(qc) == Encoding(bit, basis)
  {
    var flip: Circuit := if bit == 1 then [XGate] else [];
    EvolveAppend([], XGate);
    if basis == X then
      EvolveAppend(flip, HGate);
      flip + [HGate]
    else
      flip
  }

  /** The circuit actually read out: one extra H when measuring in the diagonal basis. */
  function MeasuredCircuit(qc: Circuit, basis: Basis): Circuit
  {
    if basis == X then qc + [HGate] else qc
  }

  /** Computational-basis readout; a superposed state reads as whatever the simulator reported. */
  function Readout(s: State, shot: Bit): (r: Bit)
    ensures (s == Zero || s == One) ==> Encoding(r, Z) == s
    ensures (s == Plus || s == Minus) ==> r == shot
  {
    match s
    case Zero => 0
    case One => 1
    case _ => shot
  }

  /** Measurement as the code is written: the noise model is accepted but never
      handed to the simulator, so it has no effect on the outcome. */
  function MeasureCircuitAsWritten(qc: Circuit, basis: Basis, noise: Noise, shot: Bit): Bit
  {
    Readout(Evolve(MeasuredCircuit(qc, basis)), shot)
  }

  /** Measurement with the noise model in effect: under noise the simulator may
      report either outcome, so the reported `shot` is the result; without noise
      the outcome is the ideal readout. The rest of the model uses this one. */
  function MeasureCircuit(qc: Circuit, basis: Basis, noise: Noise, shot: Bit): (r: Bit)
    ensures noise == Noisy ==> r == shot
  {
    if noise == Noisy then shot else MeasureCircuitAsWritten(qc, basis, noise, shot)
  }

  /** The closed-form measurement rule: a qubit holding the encoding of `bit` in
      `prepBasis`, measured without noise in `measBasis`, yields `bit` when the
      bases agree and the simulator's reported outcome when they differ. */
  lemma MeasureEncoded(qc: Circuit, bit: Bit, prepBasis: Basis, measBasis: Basis, shot: Bit)
    requires Evolve(qc) == Encoding(bit, prepBasis)
    ensures MeasureCircuit(qc, measBasis, Ideal, shot) == if measBasis == prepBasis then bit else shot
  {
    if measBasis == X {
      EvolveAppend(qc, HGate);
    }
  }

  /** The rule applied to a freshly prepared circuit. */
  lemma MeasurePrepared(bit: Bit, prepBasis: Basis, measBasis: Basis, shot: Bit)
    ensures MeasureCircuit(PrepareCircuit(bit, prepBasis), measBasis, Ideal, shot)
         == if measBasis == prepBasis then bit else shot
  {
    MeasureEncoded(PrepareCircuit(bit, prepBasis), bit, prepBasis, measBasis, shot);
  }

  /** As written, supplying a noise model never changes an outcome. */
  lemma NoiseIgnoredAsWritten(qc: Circuit, basis: Basis, shot: Bit)
    ensures MeasureCircuitAsWritten(qc, basis, Noisy, shot) == MeasureCircuitAsWritten(qc, basis, Ideal, shot)
  {
  }

  /** As written, every measurement behaves as the corrected one without noise,
      whether or not a noise model was supplied. */
  lemma AsWrittenIsIdeal(qc: Circuit, basis: Basis, noise: Noise, shot: Bit)
    ensures MeasureCircuitAsWritten(qc, basis, noise, shot) == MeasureCircuit(qc, basis, Ideal, shot)
  {
  }

  /** Concretely: a 1 prepared and measured in Z reads 1 as written even under noise,
      whatever the noisy simulator reports. */
  lemma NoisyMatchedReadoutAsWritten(shot: Bit)
    ensures MeasureCircuitAsWritten(PrepareCircuit(1, Z), Z, Noisy, shot) == 1
  {
    MeasureEncoded(PrepareCircuit(1, Z), 1, Z, Z, shot);
  }

  /** With the noise model in effect, noise can reach the outcome: the same
      matched-basis measurement returns the flipped bit when the noisy simulator
      reports it, and without noise it keeps the prepared bit. */
  lemma NoiseReachesOutcome(qc: Circuit, bit: Bit, basis: Basis, shot: Bit)
    requires Evolve(qc) == Encoding(bit, basis)
    ensures MeasureCircuit(qc, basis, Noisy, shot) == shot
    ensures MeasureCircuit(qc, basis, Ideal, shot) == bit
  {
    MeasureEncoded(qc, bit, basis, basis, shot);
  }
}
