/** Two small decisions: how `set_single_primary_particle` splits a CORSIKA
    nucleus into protons and neutrons, and which integration kernel
    `_forward_euler` picks for a configuration. */
module Decisions {
  import opened Base

  /** The superposition of a primary nucleus: its protons, its neutrons and the
      energy per nucleon. */
  datatype Superposition = Superposition(nProtons: int, nNeutrons: int, energy: real)

  /** A CORSIKA id `A * 100 + Z` with mass number zero leaves a division by zero. */
  datatype SplitError = ZeroDivision

  const CorsikaProton := 14

  /** The split for the CORSIKA id `id` of a primary with total energy `e`: 14 is
      a single proton; any other id is read as `A * 100 + Z` (Python's `%` and
      `/`, which agree with Dafny's for the divisor 100), and the energy is
      shared out over the `A` nucleons. */
  function NucleonSplit(id: int, e: real): (r: Result<Superposition, SplitError>)
    ensures id == CorsikaProton ==> r == Ok(Superposition(1, 0, e))
    ensures r.Failure? <==> id != CorsikaProton && 0 <= id < 100
  {
    if id == CorsikaProton then Ok(Superposition(1, 0, e))
    else
      var z := id % 100;
      var a := (id - z) / 100;
      if a == 0 then Failure(ZeroDivision)
      else Ok(Superposition(z, a - z, e / (a as real)))
  }

  /** For a nucleus, the charge is the last two digits, the protons and neutrons
      add up to the mass number, and the energy per nucleon times the mass
      number is the total energy. */
  lemma NucleonSplitCorrect(id: int, e: real)
    requires id != CorsikaProton && NucleonSplit(id, e).Ok?
    ensures var s := NucleonSplit(id, e).value;
      var a := id / 100;
      && a != 0
      && 0 <= s.nProtons < 100
      && a * 100 + s.nProtons == id
      && s.nProtons + s.nNeutrons == a
      && s.energy * (a as real) == e
  {
    var z := id % 100;
    assert (id - z) / 100 == id / 100;
  }

  /** Iron (CORSIKA 5626) is 26 protons and 30 neutrons sharing the energy. */
  lemma IronSplit(e: real)
    ensures NucleonSplit(5626, e) == Ok(Superposition(26, 30, e / 56.0))
  {
    assert 5626 % 100 == 26;
    assert (5626 - 26) / 100 == 56;
    assert (56 as real) == 56.0;
  }

  // ---------------------------------------------------------------------------
  // Kernel selection.

  datatype Kernel = KernNumpy | KernCudaDense | KernCudaSparse | KernMklSparse

  /** The exception for a combination no kernel supports. */
  datatype KernelError = Unsupported(sparse: bool, kernelConfig: string)

  function KernelChoice(kernelConfig: string, useSparse: bool): (r: Result<Kernel, KernelError>)
    ensures r.Failure? ==> r.error == Unsupported(useSparse, kernelConfig)
  {
    if kernelConfig == "numpy" then Ok(KernNumpy)
    else if kernelConfig == "CUDA" && !useSparse then Ok(KernCudaDense)
    else if kernelConfig == "CUDA" && useSparse then Ok(KernCudaSparse)
    else if kernelConfig == "MKL" && useSparse then Ok(KernMklSparse)
    else Failure(Unsupported(useSparse, kernelConfig))
  }

  predicate SparseKernel(k: Kernel)
  {
    k == KernCudaSparse || k == KernMklSparse
  }

  /** A kernel is found exactly for numpy, for CUDA, and for sparse MKL; the
      numpy kernel ignores the sparsity flag, and every other kernel is sparse
      exactly when sparse matrices were asked for. */
  lemma KernelChoiceCorrect(kernelConfig: string, useSparse: bool)
    ensures var r := KernelChoice(kernelConfig, useSparse);
      && (r.Ok? <==> kernelConfig == "numpy" || kernelConfig == "CUDA" || (kernelConfig == "MKL" && useSparse))
      && (r.Ok? && r.value != KernNumpy ==> (SparseKernel(r.value) <==> useSparse))
      && (r.Ok? ==> (r.value == KernNumpy <==> kernelConfig == "numpy"))
      && (r == Ok(KernMklSparse) ==> kernelConfig == "MKL")
  {
  }
}
