# BB84 simulation engine in Dafny

This project models the classical core of a BB84 quantum-key-distribution simulator. Alice prepares one
qubit per bit: a bit in the rectilinear (Z) or diagonal (X) basis. Eve may intercept a qubit at random.
If she does, she measures it in a basis of her own and resends what she saw. Bob measures what reaches
him in his own basis. Sifting then keeps the positions where Alice's and Bob's bases agree. The quantum
bit error rate (QBER) is the fraction of sifted positions at which Alice's and Bob's bits differ.

Files and modules:

- `qubits.dfy` (`Qubits`): bits, bases, the preparation circuit and measurement. The circuits use only
  the gates X and H, so their effect is computed exactly over the four BB84 states |0>, |1>, |+>, |->.
  From that, the closed-form rule is proved. Without noise, measuring in the preparation basis returns
  the prepared bit. Measuring in the other basis returns whatever the simulator reports, an explicit
  input.
- `eavesdropping.dfy` (`Eavesdropping`): the intercept-resend adversary `InterceptResendModel` and its
  `Intercept` operation.
- `protocol.dfy` (`Protocol`): the engine. `Run` is the specification: a function over the first k
  particles. `RunBB84` is the loop that builds `bobResults` and sets `eveFlags[i]` in place; it is proved
  equal to `Run`. The lemmas give the per-index meaning of the output. The engine measures through
  `Qubits.MeasureCircuit`, which applies a supplied noise model (see "## Findings"). The code as
  written is `RunAsWritten`, proved equal to `Run` with the noise model dropped.
- `sifting.dfy` (`Sifting`): `SiftKey` (a loop with invariants), the predicate `IsSift` that fully
  characterises a sift, and `ComputeQber`.
- `end_to_end.dfy` (`EndToEnd`): the zero-QBER guarantee without noise and without eavesdropping (and,
  for the code as written, even with a noise model), and the eight-particle exchange of
  `tests/test_bb84.py`.

Randomness is passed in explicitly (`Protocol.Sources`):

- `rand(k)` is the k-th value that `np.random.rand()` returns during one run. The shared generator is
  drawn in index order: once per particle for the interception decision, but only when the fraction is
  positive, because the `and` short-circuits. It is drawn once more per intercepted particle under the
  `'random'` strategy, for Eve's basis. `RunBB84` also returns how many values it drew.
- `eveOutcome(i)` and `bobOutcome(i)` are the outcomes the simulator reports for Eve's and Bob's
  measurement of particle i. They matter only when the state does not determine the outcome.

## Model

| member | source | states |
|---|---|---|
| `Qubits.PrepareCircuit` | bb84-qiskit-streamlit-full/src/bb84.py:16-22 | the circuit (X if the bit is 1, then H in basis X) leaves the qubit in the BB84 encoding of that bit in that basis |
| `Qubits.EncodingInjective` | bb84-qiskit-streamlit-full/src/bb84.py:16-22 | distinct (bit, basis) pairs are prepared as distinct states |
| `Qubits.GateInvolution` | bb84-qiskit-streamlit-full/src/bb84.py:27-28 | X·X and H·H are the identity on every BB84 state, so the extra H before a diagonal measurement undoes the preparation's H |
| `Qubits.MeasureEncoded` | bb84-qiskit-streamlit-full/src/bb84.py:24-39 | a qubit encoding `bit` in basis p, measured without noise in basis m, yields `bit` if m = p and the simulator's reported outcome otherwise |
| `Qubits.MeasurePrepared` | bb84-qiskit-streamlit-full/src/bb84.py:16-39 | the same rule for a freshly prepared circuit: matching bases preserve the bit; mismatched bases give an outcome independent of it |
| `Qubits.MeasuredCircuit` | bb84-qiskit-streamlit-full/src/bb84.py:25-28 | the circuit read out: the caller's circuit, copied, with one extra H appended when measuring in X |
| `Qubits.Readout` | bb84-qiskit-streamlit-full/src/bb84.py:36-38 | a computational-basis state reads as the bit whose Z encoding it is; a superposed state reads as the outcome the simulator reported, the first key of its counts |
| `Qubits.MeasureCircuitAsWritten` | bb84-qiskit-streamlit-full/src/bb84.py:24-39 | `_measure_circuit` as written: read out the measured circuit's state; the noise model is a parameter that is never used |
| `Qubits.MeasureCircuit` | bb84-qiskit-streamlit-full/src/bb84.py:24-39 | the corrected measurement: under a noise model the result is the noisy simulator's reported outcome; without one it is the as-written readout |
| `Qubits.AsWrittenIsIdeal` | bb84-qiskit-streamlit-full/src/bb84.py:24-39 | as written, every measurement, with or without a noise model, equals the corrected measurement without noise |
| `Qubits.NoiseIgnoredAsWritten` | bb84-qiskit-streamlit-full/src/bb84.py:24-35 | as written, measuring with a noise model gives the same outcome as measuring without one |
| `Qubits.NoisyMatchedReadoutAsWritten` | bb84-qiskit-streamlit-full/src/bb84.py:24-35 | as written, a 1 prepared and measured in Z reads 1 even with a noise model, whatever the noisy simulator would report |
| `Qubits.NoiseReachesOutcome` | bb84-qiskit-streamlit-full/src/bb84.py:24-35 | with the noise model in effect, a matched-basis measurement returns the noisy simulator's outcome; without noise it returns the prepared bit |
| `Eavesdropping.InterceptResendModel.Intercept` | bb84-qiskit-streamlit-full/src/bb84.py:46-64 | Eve's basis is Z for any strategy but `'random'`; under `'random'` it is Z exactly when the draw is below 0.5, and exactly one draw is consumed; the resent circuit encodes Eve's measured bit in Eve's basis; without noise Eve measures Alice's bit when she guessed Alice's basis and the simulator's outcome otherwise |
| `Eavesdropping.MatchingGuessResendsAlicesState` | bb84-qiskit-streamlit-full/src/bb84.py:53-64 | when Eve guesses Alice's basis, without noise, she learns Alice's bit and resends exactly Alice's state |
| `Sifting.CountMatches` | bb84-qiskit-streamlit-full/src/bb84.py:93-94 | the number of agreeing-basis positions is at most the length, and equals it iff the bases agree everywhere |
| `Sifting.SiftKey` | bb84-qiskit-streamlit-full/src/bb84.py:89-98 | the three outputs have equal length, equal to the number of agreeing-basis positions; `positions` is strictly increasing and holds exactly the agreeing indices; `aliceSifted[k]` and `bobSifted[k]` are Alice's and Bob's bits at `positions[k]` |
| `Sifting.SiftUnique` | bb84-qiskit-streamlit-full/src/bb84.py:89-98 | that characterisation determines the sift: any two results meeting it are equal |
| `Sifting.Mismatches` | bb84-qiskit-streamlit-full/src/bb84.py:103 | the number of differing positions is at most the length; it is 0 iff the keys agree everywhere, and equal to the length iff they differ everywhere |
| `Sifting.Fraction` | bb84-qiskit-streamlit-full/src/bb84.py:104 | m errors out of n > 0 as a fraction q with q × n = m, so q lies in [0, 1], is 0 iff m = 0 and 1 iff m = n |
| `Sifting.ComputeQber` | bb84-qiskit-streamlit-full/src/bb84.py:100-104 | 0 for an empty sift, with no division by zero; otherwise the mismatch count divided by the sifted length; the QBER lies in [0, 1]; it is 0 iff the keys agree everywhere and 1 iff they are non-empty and differ everywhere |
| `Protocol.Run` | bb84-qiskit-streamlit-full/src/bb84.py:68-87 | on k particles the engine yields k Bob results and k interception flags |
| `Protocol.Transmit` | bb84-qiskit-streamlit-full/src/bb84.py:74-86 | the per-particle specification: if the fraction is positive and the next draw is below it, Eve intercepts (with the following draw for her basis) and Bob measures her resent circuit; otherwise Bob measures Alice's prepared circuit, and the draw is consumed only when the fraction is positive |
| `Protocol.TransmitFacts` | bb84-qiskit-streamlit-full/src/bb84.py:74-86 | a particle is intercepted iff the fraction is positive and its draw is below it; the generator advances by that draw and, under `'random'`, by Eve's basis draw; with a noise model Bob gets the noisy outcome; without one, on a particle Eve left alone, Bob gets Alice's bit when he used her basis and the simulator's outcome otherwise |
| `Protocol.TransmitAsWritten` | bb84-qiskit-streamlit-full/src/bb84.py:74-86 | one particle as the code is written, with both measurements ignoring the noise model, equals `Transmit` with the noise model dropped |
| `Protocol.RunAsWritten` | bb84-qiskit-streamlit-full/src/bb84.py:66-87 | the loop of `run_bb84` as written, over the first k particles, yields k results and k flags |
| `Protocol.RunAsWrittenIgnoresNoise` | bb84-qiskit-streamlit-full/src/bb84.py:24-35 | as written, a run with a noise model is exactly the noiseless run (`Run` with the noise model dropped) |
| `Protocol.NoiseLostAsWritten` | bb84-qiskit-streamlit-full/src/bb84.py:24-35 | a 1 sent and measured in Z under a noise model whose simulator reports 0: the corrected engine returns 0, the code as written returns 1 |
| `Protocol.TransmitParticle` | bb84-qiskit-streamlit-full/src/bb84.py:74-86 | one pass of the loop body (interception draw only when the fraction is positive, then either intercept-resend and Bob's measurement of the resent qubit, or Bob's measurement of Alice's qubit) yields exactly the per-particle specification `Transmit` |
| `Protocol.RunBB84` | bb84-qiskit-streamlit-full/src/bb84.py:66-87 | the loop that appends to `bob_results` and sets `eve_flags[i]` in place computes exactly the specification `Run` over all particles, including the number of generator draws |
| `Protocol.RunExtends` | bb84-qiskit-streamlit-full/src/bb84.py:73-86 | processing further particles never changes the earlier results or flags, and never un-draws from the generator |
| `Protocol.RunAt` | bb84-qiskit-streamlit-full/src/bb84.py:73-86 | the result and flag at index i are those of transmitting particle i with the generator where particles 0..i-1 left it |
| `Protocol.FlagMeansDrawBelowFraction` | bb84-qiskit-streamlit-full/src/bb84.py:75-81 | `eveFlags[i]` holds iff the fraction is positive and particle i's draw is below it, i.e. only on the intercept branch |
| `Protocol.DisabledNeverIntercepts` | bb84-qiskit-streamlit-full/src/bb84.py:70-75 | with a fraction of 0 or less, every flag is false and no value is drawn from the generator |
| `Protocol.CertainAlwaysIntercepts` | bb84-qiskit-streamlit-full/src/bb84.py:75 | with a fraction of 1 or more, and every draw in [0, 1), every particle is intercepted |
| `Protocol.DrawsConsumed` | bb84-qiskit-streamlit-full/src/bb84.py:48-81 | the run draws n values from the generator when the fraction is positive (0 otherwise), plus one per intercepted particle under `'random'` |
| `Protocol.UninterceptedMeasurement` | bb84-qiskit-streamlit-full/src/bb84.py:82-86 | on a particle Eve leaves alone, without noise, Bob reads Alice's bit if his basis is hers, and otherwise the simulator's outcome, independent of Alice's bit |
| `Protocol.InterceptedMeasurement` | bb84-qiskit-streamlit-full/src/bb84.py:76-81 | on an intercepted particle Bob measures Eve's resent qubit, never Alice's. It encodes Eve's measured bit in Eve's basis, and that basis is Z for any strategy but `'random'`. Without noise, Eve's bit is Alice's when she guessed Alice's basis, and Bob reads Eve's bit when he shares her basis; so an interception on which all three bases agree causes no error |
| `EndToEnd.NoEavesdropperZeroQber` | bb84-qiskit-streamlit-full/src/bb84.py:82-104 | without noise and with a fraction of 0 or less, the QBER of the sift of the run is exactly 0 for every choice of bases and every random source |
| `EndToEnd.AsWrittenZeroQberDespiteNoise` | bb84-qiskit-streamlit-full/src/bb84.py:24-104 | as written, with eavesdropping disabled, the QBER of the sift is 0 even when a noise model was supplied |
| `EndToEnd.MatchedBasesSiftEverything` | bb84-qiskit-streamlit-full/src/bb84.py:93-97 | when Bob's bases equal Alice's everywhere, the positions are 0..n-1 in order and the sifted keys are the full bit sequences |
| `EndToEnd.NoNoiseScenario` | bb84-qiskit-streamlit-full/tests/test_bb84.py:4-12 | the eight-particle exchange with identical bases, no noise and fraction 0 sifts all 8 positions and has QBER 0, for every random source |

## Left out

- The Qiskit and Aer calls (bb84.py:7-14, 29-35) are not modelled: transpilation, backend runs and
  shot counts. They are replaced by the exact effect of X and H on the four BB84 states. The first key
  of the counts dictionary (bb84.py:37-38) becomes the `shot` input whenever the state does not fix
  the outcome.
- The probabilistic claims are out of reach of a verifier. These are the 50/50 distribution of
  mismatched-basis outcomes and the claim that interception raises the expected QBER. The stochastic
  test tests/test_bb84.py:14-24 belongs here too.
- Noise is kept only as a flag: a noise model was or was not supplied. src/noise_models.py builds its
  depolarizing, bit-flip and phase-flip models inside Qiskit, so their action is not part of this
  model. In the corrected measurement `Qubits.MeasureCircuit`, a measurement under a noise model
  returns an arbitrary reported outcome. The code as written ignores the noise model entirely (see
  "## Findings").
- Floating point is not modelled. The QBER is an exact `real`, not a rounded double. Generator values
  and the intercept fraction are `real`s compared exactly.
- Input validation: the Python performs none. Equal lengths of the bit and basis sequences are
  preconditions. `zip`'s truncation to the shorter basis list in `sift_key` is not modelled.
- The code checks neither the input lengths nor the fraction's range. The model accepts any real
  fraction, and equal lengths are preconditions.
- `run_bb84`'s default arguments (`noise_model=None`, `intercept_fraction=0.0`,
  `eve_strategy='random'`, bb84.py:66) are required parameters of `Protocol.RunBB84`.
- Bases are a two-valued datatype. The code compares strings, and treats any string other than `'X'`
  as Z when preparing and measuring; basis strings other than `'Z'` and `'X'` are not modelled.
- src/eavesdropper.py is not part of this model (its `decide_intercept` is unused by the engine).
  Neither are app/streamlit_app.py (user interface, plots, CSV export, the 0.11 threshold) or
  src/ml_detector.py (classifier training and persistence).
- The numpy array conversions of `sift_key`'s results are sequences here.

## Findings

| source | as written | input that shows it | evidently intended | confidence | as-written member | corrected member |
|---|---|---|---|---|---|---|
| bb84-qiskit-streamlit-full/src/bb84.py:24-35 | `_measure_circuit` accepts `noise_model` but never passes it to `backend.run`, so a supplied noise model has no effect on any outcome | bit 1 prepared in Z, measured in Z with a noise model: the result is always 1, whatever noise is configured | the module docstring (bb84.py:5) says noise is applied via the Qiskit noise model when provided, so a noisy simulator's outcome should reach Bob and Eve | not executed; high | `Qubits.MeasureCircuitAsWritten`, `Qubits.NoisyMatchedReadoutAsWritten`, `Protocol.RunAsWritten`, `Protocol.RunAsWrittenIgnoresNoise`, `Protocol.NoiseLostAsWritten` | `Qubits.MeasureCircuit`, `Qubits.NoiseReachesOutcome`, `Protocol.Run`, `Protocol.TransmitFacts` |
