/** Activation kinds a neuron gene can select (src/components/activation.rs). */
module Activations {

  datatype Activation = None | Tanh | Sigmoid | ReLU | Gaussian

  /** Index-to-variant decoding; indices from 5 on panic, so callers must stay below 5. */
  function Get(n: nat): (a: Activation)
    requires n < 5
    ensures Index(a) == n
  {
    match n
    case 0 => Tanh
    case 1 => Sigmoid
    case 2 => ReLU
    case 3 => Gaussian
    case 4 => None
  }

  /** The index `Get` decodes to each variant. */
  function Index(a: Activation): (n: nat)
    ensures n < 5
  {
    match a
    case Tanh => 0
    case Sigmoid => 1
    case ReLU => 2
    case Gaussian => 3
    case None => 4
  }

  /** Every variant is decoded from exactly one index: `Get` is onto. */
  lemma GetOnto(a: Activation)
    ensures Get(Index(a)) == a
  {
  }

  /** Distinct indices decode to distinct variants: `Get` is one-to-one. */
  lemma GetInjective(m: nat, n: nat)
    requires m < 5 && n < 5
    ensures Get(m) == Get(n) ==> m == n
  {
  }
}
