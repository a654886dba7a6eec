/** A neuron: a firing threshold `w`, the current `value` and an activation (src/components/neuron.rs). */
module Neurons {
  import opened Genes
  import opened Activations

  datatype Neuron = Neuron(w: real, value: real, activation: Activation)

  /** The neuron-gene accessors the source calls but whose bodies are not part of this model:
      node index, memory flag, threshold and activation kind. */
  datatype NeuronGeneDecoder = NeuronGeneDecoder(
    neuronIndex: Gene -> nat,
    isMemory: Gene -> bool,
    neuronWeight: Gene -> real,
    activationType: Gene -> Activation)

  /** The numeric activation functions (tanh, the logistic sigmoid, ...), left uninterpreted. */
  type ActivationFn = (Activation, real) -> real

  /** A neuron with threshold `w` starts at value 0. */
  function New(w: real, activation: Activation): (n: Neuron)
    ensures n.value == 0.0 && n.w == w && n.activation == activation
  {
    Neuron(w, 0.0, activation)
  }

  /** Decodes a neuron gene into its node index, memory flag and a neuron at value 0. */
  function FromGene(g: Gene, dec: NeuronGeneDecoder): (r: (nat, bool, Neuron))
    ensures r.0 == dec.neuronIndex(g) && r.1 == dec.isMemory(g)
    ensures r.2.value == 0.0 && r.2.w == dec.neuronWeight(g) && r.2.activation == dec.activationType(g)
  {
    (dec.neuronIndex(g), dec.isMemory(g), New(dec.neuronWeight(g), dec.activationType(g)))
  }

  function Abs(x: real): real { if x < 0.0 then -x else x }

  /** The threshold gate: a neuron whose magnitude exceeds `w` replaces its value by the activation
      of it and emits that; otherwise it emits 0 and stays as it is. The source updates `value` in place;
      here the updated neuron is returned beside the output. */
  function Fire(n: Neuron, act: ActivationFn): (r: (Neuron, real))
    ensures r.0.w == n.w && r.0.activation == n.activation
    ensures Abs(n.value) > n.w ==> r.0.value == act(n.activation, n.value) && r.1 == r.0.value
    ensures Abs(n.value) <= n.w ==> r.0 == n && r.1 == 0.0
  {
    if Abs(n.value) > n.w then
      var fired := n.(value := act(n.activation, n.value));
      (fired, fired.value)
    else
      (n, 0.0)
  }

  /** The output of `Fire` is always the neuron's value afterwards, or 0 when the gate stays shut. */
  lemma FireOutputIsValueOrZero(n: Neuron, act: ActivationFn)
    ensures var (m, out) := Fire(n, act); out == m.value || out == 0.0
  {
  }
}
