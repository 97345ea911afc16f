/** `get_solution`: reading the flux of one category off the state vector, and
    adding up the lepton categories for the `total_` and `conv_` names. The
    energy weight `e_grid ** mag` is an abstract per-bin weight `w`. */
module Retrieval {
  import opened Base
  import opened Particles

  /** How `get_solution` can fail: a name that is not in `pname2pref`
      (KeyError), a `total`/`conv` name without a second `_` field or a depth
      index outside the grid (IndexError), or a species without a block of `d`
      bins in the state vector, whose empty slice does not combine with the
      weight (ValueError). */
  datatype SolError = KeyError(name: string) | IndexError | ShapeMismatch(name: string)

  /** Python's `s[i]` on a list: negative indices count from the end. */
  function PyIndex<T>(s: seq<T>, i: int): (r: Option<T>)
    ensures r.Some? <==> -|s| <= i < |s|
    ensures r.Some? && i >= 0 ==> r.value == s[i]
    ensures r.Some? && i < 0 ==> r.value == s[|s| + i]
  {
    if 0 <= i < |s| then Some(s[i])
    else if -|s| <= i < 0 then Some(s[|s| + i])
    else None
  }

  /** The state vector the result is read from: the one at the surface, or the
      one stored for depth `grid_idx`. */
  function Selected(solution: seq<real>, gridSol: seq<seq<real>>, gridIdx: Option<int>): (r: Result<seq<real>, SolError>)
    ensures gridIdx.None? ==> r == Ok(solution)
    ensures gridIdx.Some? ==> (r.Ok? <==> -|gridSol| <= gridIdx.value < |gridSol|)
    ensures gridIdx.Some? && 0 <= gridIdx.value < |gridSol| ==> r == Ok(gridSol[gridIdx.value])
  {
    match gridIdx
    case None => Ok(solution)
    case Some(i) =>
      match PyIndex(gridSol, i)
      case Some(s) => Ok(s)
      case None => Failure(IndexError)
  }

  predicate StartsWith(s: string, prefix: string)
  {
    |prefix| <= |s| && s[..|prefix|] == prefix
  }

  /** The position of the first `c` in `s`. */
  function Find(s: string, c: char): (r: Option<nat>)
    ensures r.None? <==> c !in s
    ensures r.Some? ==> r.value < |s| && s[r.value] == c && c !in s[..r.value]
  {
    if s == [] then None
    else if s[0] == c then Some(0)
    else match Find(s[1..], c)
      case None => None
      case Some(k) =>
        assert s[..k + 1] == [s[0]] + s[1..][..k];
        Some(k + 1)
  }

  /** `s.split('_')[1]`: the text between the first and the second `_` (or the
      end), None where the split has a single field. */
  function SecondField(s: string): (r: Option<string>)
    ensures r.None? <==> '_' !in s
    ensures r.Some? ==> '_' !in r.value
  {
    match Find(s, '_')
    case None => None
    case Some(i) =>
      var rest := s[i + 1..];
      match Find(rest, '_')
      case None => Some(rest)
      case Some(j) => Some(rest[..j])
  }

  lemma SecondFieldOf(head: string, field: string, more: string)
    requires '_' !in head && '_' !in field
    ensures SecondField(head + "_" + field) == Some(field)
    ensures SecondField(head + "_" + field + "_" + more) == Some(field)
  {
    var s := head + "_" + field;
    assert s[..|head|] == head && s[|head|] == '_';
    assert s[|head| + 1..] == field;
    var t := head + "_" + field + "_" + more;
    assert t[..|head|] == head && t[|head|] == '_';
    var rest := t[|head| + 1..];
    assert rest == field + "_" + more;
    assert rest[..|field|] == field && rest[|field|] == '_';
  }

  /** `sol[ref[name].lidx():ref[name].uidx()] * w`: the `d` bins of `name`'s
      block, weighted bin by bin. */
  function Block(ref: map<string, Species>, d: nat, sol: seq<real>, w: seq<real>, name: string): (r: Result<seq<real>, SolError>)
    requires |w| == d
    ensures name !in ref ==> r == Failure(KeyError(name))
    ensures r.Failure? ==> r.error == KeyError(name) || r.error == ShapeMismatch(name)
    ensures r.Ok? <==> name in ref && ref[name].nceidx.Some? && (ref[name].nceidx.value + 1) * d <= |sol|
    ensures r.Ok? ==> (|r.value| == d
      && forall k :: 0 <= k < d ==> r.value[k] == sol[ref[name].nceidx.value * d + k] * w[k])
  {
    if name !in ref then Failure(KeyError(name))
    else
      var rg := RangeOf(ref[name], d);
      if ref[name].nceidx.Some? && rg.hi <= |sol| then
        MulMono(ref[name].nceidx.value, ref[name].nceidx.value + 1, d);
        Ok(seq(d, k requires 0 <= k < d => sol[rg.lo + k] * w[k]))
      else Failure(ShapeMismatch(name))
  }

  /** Bin-wise sum. */
  function Add(a: seq<real>, b: seq<real>): (r: seq<real>)
    requires |a| == |b|
    ensures |r| == |a| && forall k :: 0 <= k < |a| ==> r[k] == a[k] + b[k]
  {
    seq(|a|, k requires 0 <= k < |a| => a[k] + b[k])
  }

  function Zeros(d: nat): (r: seq<real>)
    ensures |r| == d && forall k :: 0 <= k < d ==> r[k] == 0.0
  {
    seq(d, k => 0.0)
  }

  const TotalPrefixes: seq<string> := ["pr_", "pi_", "k_", ""]
  const ConvPrefixes: seq<string> := ["pi_", "k_", ""]

  /** The sum over `prefixes` of the blocks `prefix + lep`, starting from zero;
      the first block that cannot be read is the error. */
  function SumBlocks(ref: map<string, Species>, d: nat, sol: seq<real>, w: seq<real>,
                     prefixes: seq<string>, lep: string): (r: Result<seq<real>, SolError>)
    requires |w| == d
    ensures r.Ok? <==> forall i :: 0 <= i < |prefixes| ==> Block(ref, d, sol, w, prefixes[i] + lep).Ok?
    ensures r.Ok? ==> |r.value| == d
  {
    if prefixes == [] then Ok(Zeros(d))
    else
      var front := prefixes[..|prefixes| - 1];
      match SumBlocks(ref, d, sol, w, front, lep)
      case Failure(e) => Failure(e)
      case Ok(acc) =>
        match Block(ref, d, sol, w, prefixes[|prefixes| - 1] + lep)
        case Failure(e) => Failure(e)
        case Ok(b) => Ok(Add(acc, b))
  }

  /** What `get_solution(name, mag, grid_idx)` returns. */
  function Retrieved(ref: map<string, Species>, d: nat, solution: seq<real>, gridSol: seq<seq<real>>,
                     w: seq<real>, name: string, gridIdx: Option<int>): Result<seq<real>, SolError>
    requires |w| == d
  {
    match Selected(solution, gridSol, gridIdx)
    case Failure(e) => Failure(e)
    case Ok(sol) =>
      if StartsWith(name, "total") || StartsWith(name, "conv") then
        match SecondField(name)
        case None => Failure(IndexError)
        case Some(lep) =>
          SumBlocks(ref, d, sol, w, if StartsWith(name, "total") then TotalPrefixes else ConvPrefixes, lep)
      else Block(ref, d, sol, w, name)
  }

  /** The `res +=` loop over the prefixes. */
  method AccumulateBlocks(ref: map<string, Species>, d: nat, sol: seq<real>, w: seq<real>,
                          prefixes: seq<string>, lep: string) returns (r: Result<seq<real>, SolError>)
    requires |w| == d
    ensures r == SumBlocks(ref, d, sol, w, prefixes, lep)
  {
    var res := Zeros(d);
    var i := 0;
    while i < |prefixes|
      invariant 0 <= i <= |prefixes|
      invariant SumBlocks(ref, d, sol, w, prefixes[..i], lep) == Ok(res)
    {
      assert prefixes[..i + 1][..i] == prefixes[..i];
      var block := Block(ref, d, sol, w, prefixes[i] + lep);
      if block.Failure? {
        assert SumBlocks(ref, d, sol, w, prefixes[..i + 1], lep) == block;
        SumBlocksFailure(ref, d, sol, w, prefixes, lep, i + 1);
        return block;
      }
      res := Add(res, block.value);
      i := i + 1;
    }
    assert prefixes[..i] == prefixes;
    return Ok(res);
  }

  /** Once a prefix of the list fails, the whole sum fails the same way. */
  lemma {:induction false} SumBlocksFailure(ref: map<string, Species>, d: nat, sol: seq<real>, w: seq<real>,
                                            prefixes: seq<string>, lep: string, n: nat)
    requires |w| == d && n <= |prefixes|
    requires SumBlocks(ref, d, sol, w, prefixes[..n], lep).Failure?
    ensures SumBlocks(ref, d, sol, w, prefixes, lep) == SumBlocks(ref, d, sol, w, prefixes[..n], lep)
    decreases |prefixes| - n
  {
    if n < |prefixes| {
      assert prefixes[..n + 1][..n] == prefixes[..n];
      SumBlocksFailure(ref, d, sol, w, prefixes, lep, n + 1);
    } else {
      assert prefixes[..n] == prefixes;
    }
  }

  /** `get_solution`. */
  method GetSolution(ref: map<string, Species>, d: nat, solution: seq<real>, gridSol: seq<seq<real>>,
                     w: seq<real>, name: string, gridIdx: Option<int>) returns (r: Result<seq<real>, SolError>)
    requires |w| == d
    ensures r == Retrieved(ref, d, solution, gridSol, w, name, gridIdx)
  {
    var sol: seq<real>;
    if gridIdx.None? {
      sol := solution;
    } else {
      var picked := PyIndex(gridSol, gridIdx.value);
      if picked.None? {
        return Failure(IndexError);
      }
      sol := picked.value;
    }
    if StartsWith(name, "total") {
      var lep := SecondField(name);
      if lep.None? {
        return Failure(IndexError);
      }
      r := AccumulateBlocks(ref, d, sol, w, TotalPrefixes, lep.value);
    } else if StartsWith(name, "conv") {
      var lep := SecondField(name);
      if lep.None? {
        return Failure(IndexError);
      }
      r := AccumulateBlocks(ref, d, sol, w, ConvPrefixes, lep.value);
    } else {
      r := Block(ref, d, sol, w, name);
    }
  }

  // ---------------------------------------------------------------------------
  // What the categories add up to.

  /** The `total_` flux of a lepton is its `conv_` flux plus its prompt (`pr_`)
      flux, bin by bin, and one can be read exactly when the other and the
      prompt block can. */
  lemma TotalIsConvPlusPrompt(ref: map<string, Species>, d: nat, sol: seq<real>, w: seq<real>, lep: string)
    requires |w| == d
    ensures SumBlocks(ref, d, sol, w, TotalPrefixes, lep).Ok?
        <==> SumBlocks(ref, d, sol, w, ConvPrefixes, lep).Ok? && Block(ref, d, sol, w, "pr_" + lep).Ok?
    ensures SumBlocks(ref, d, sol, w, TotalPrefixes, lep).Ok? ==>
      SumBlocks(ref, d, sol, w, TotalPrefixes, lep).value
        == Add(SumBlocks(ref, d, sol, w, ConvPrefixes, lep).value, Block(ref, d, sol, w, "pr_" + lep).value)
  {
    var total := SumBlocks(ref, d, sol, w, TotalPrefixes, lep);
    var conv := SumBlocks(ref, d, sol, w, ConvPrefixes, lep);
    assert TotalPrefixes[0] == "pr_" && TotalPrefixes[1] == "pi_" && TotalPrefixes[2] == "k_" && TotalPrefixes[3] == "";
    assert ConvPrefixes[0] == "pi_" && ConvPrefixes[1] == "k_" && ConvPrefixes[2] == "";
    if total.Ok? {
      assert Block(ref, d, sol, w, TotalPrefixes[0] + lep).Ok?;
      forall i | 0 <= i < 3 ensures Block(ref, d, sol, w, ConvPrefixes[i] + lep).Ok? {
        assert ConvPrefixes[i] == TotalPrefixes[i + 1];
      }
    }
    if conv.Ok? && Block(ref, d, sol, w, "pr_" + lep).Ok? {
      assert Block(ref, d, sol, w, ConvPrefixes[0] + lep).Ok?;
      assert Block(ref, d, sol, w, ConvPrefixes[1] + lep).Ok?;
      assert Block(ref, d, sol, w, ConvPrefixes[2] + lep).Ok?;
      SumsOfFour(ref, d, sol, w, lep);
    }
  }

  /** With all four blocks readable, the sums unfold to nested bin-wise additions. */
  lemma SumsOfFour(ref: map<string, Species>, d: nat, sol: seq<real>, w: seq<real>, lep: string)
    requires |w| == d
    requires Block(ref, d, sol, w, "pr_" + lep).Ok? && Block(ref, d, sol, w, "pi_" + lep).Ok?
    requires Block(ref, d, sol, w, "k_" + lep).Ok? && Block(ref, d, sol, w, "" + lep).Ok?
    ensures SumBlocks(ref, d, sol, w, TotalPrefixes, lep).Ok? && SumBlocks(ref, d, sol, w, ConvPrefixes, lep).Ok?
    ensures SumBlocks(ref, d, sol, w, TotalPrefixes, lep).value
         == Add(SumBlocks(ref, d, sol, w, ConvPrefixes, lep).value, Block(ref, d, sol, w, "pr_" + lep).value)
  {
    var pr := Block(ref, d, sol, w, "pr_" + lep).value;
    var pi := Block(ref, d, sol, w, "pi_" + lep).value;
    var k := Block(ref, d, sol, w, "k_" + lep).value;
    var bare := Block(ref, d, sol, w, "" + lep).value;
    var t1 := Add(Zeros(d), pr);
    var t2 := Add(t1, pi);
    var t3 := Add(t2, k);
    var t := Add(t3, bare);
    assert ["pr_"][..0] == [];
    assert SumBlocks(ref, d, sol, w, ["pr_"], lep) == Ok(t1);
    assert ["pr_", "pi_"][..1] == ["pr_"];
    assert SumBlocks(ref, d, sol, w, ["pr_", "pi_"], lep) == Ok(t2);
    assert ["pr_", "pi_", "k_"][..2] == ["pr_", "pi_"];
    assert SumBlocks(ref, d, sol, w, ["pr_", "pi_", "k_"], lep) == Ok(t3);
    assert TotalPrefixes[..3] == ["pr_", "pi_", "k_"];
    assert SumBlocks(ref, d, sol, w, TotalPrefixes, lep) == Ok(t);
    var c1 := Add(Zeros(d), pi);
    var c2 := Add(c1, k);
    var c := Add(c2, bare);
    assert ["pi_"][..0] == [];
    assert SumBlocks(ref, d, sol, w, ["pi_"], lep) == Ok(c1);
    assert ["pi_", "k_"][..1] == ["pi_"];
    assert SumBlocks(ref, d, sol, w, ["pi_", "k_"], lep) == Ok(c2);
    assert ConvPrefixes[..2] == ["pi_", "k_"];
    assert SumBlocks(ref, d, sol, w, ConvPrefixes, lep) == Ok(c);
    assert forall j :: 0 <= j < d ==> t[j] == Add(c, pr)[j];
    assert t == Add(c, pr);
  }

  /** The same, on names: `total_x` is `conv_x` plus `pr_x`. */
  lemma TotalName(ref: map<string, Species>, d: nat, solution: seq<real>, gridSol: seq<seq<real>>,
                  w: seq<real>, lep: string, gridIdx: Option<int>)
    requires |w| == d && '_' !in lep
    ensures var total := Retrieved(ref, d, solution, gridSol, w, "total_" + lep, gridIdx);
      var conv := Retrieved(ref, d, solution, gridSol, w, "conv_" + lep, gridIdx);
      var sel := Selected(solution, gridSol, gridIdx);
      && (total.Ok? <==> conv.Ok? && sel.Ok? && Block(ref, d, sel.value, w, "pr_" + lep).Ok?)
      && (total.Ok? ==> total.value == Add(conv.value, Block(ref, d, sel.value, w, "pr_" + lep).value))
  {
    TotalNameShape(lep);
    ConvNameShape(lep);
    var sel := Selected(solution, gridSol, gridIdx);
    if sel.Ok? {
      TotalIsConvPlusPrompt(ref, d, sel.value, w, lep);
    }
  }

  lemma TotalNameShape(lep: string)
    requires '_' !in lep
    ensures StartsWith("total_" + lep, "total") && SecondField("total_" + lep) == Some(lep)
  {
    SecondFieldOf("total", lep, "");
    assert "total_" + lep == "total" + "_" + lep;
    assert ("total_" + lep)[..5] == "total";
  }

  lemma ConvNameShape(lep: string)
    requires '_' !in lep
    ensures StartsWith("conv_" + lep, "conv") && !StartsWith("conv_" + lep, "total")
    ensures SecondField("conv_" + lep) == Some(lep)
  {
    SecondFieldOf("conv", lep, "");
    assert "conv_" + lep == "conv" + "_" + lep;
    assert ("conv_" + lep)[..4] == "conv";
    assert ("conv_" + lep)[0] == 'c';
  }

  /** Any other name returns the weighted block of that species alone. */
  lemma PlainName(ref: map<string, Species>, d: nat, sol: seq<real>, w: seq<real>, name: string)
    requires |w| == d && !StartsWith(name, "total") && !StartsWith(name, "conv")
    ensures var r := Retrieved(ref, d, sol, [], w, name, None);
      && (r.Ok? <==> name in ref && ref[name].nceidx.Some? && (ref[name].nceidx.value + 1) * d <= |sol|)
      && (r.Ok? ==> forall k :: 0 <= k < d ==> r.value[k] == sol[ref[name].nceidx.value * d + k] * w[k])
  {
  }

  /** `total` and `conv` names need a second `_` field. */
  lemma MissingField(ref: map<string, Species>, d: nat, sol: seq<real>, w: seq<real>, name: string)
    requires |w| == d && (StartsWith(name, "total") || StartsWith(name, "conv")) && '_' !in name
    ensures Retrieved(ref, d, sol, [], w, name, None) == Failure(IndexError)
  {
  }
}
