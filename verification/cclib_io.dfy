/** Turning the parsed output of a quantum-chemistry code into the platform's
    chemical JSON: the flattened basis set, the orbital coefficients of the
    last iteration, the vibrational displacements, and the post-processing
    the psi4 reader applies (occupations, placeholder intensities and modes,
    lower-cased metadata, last orbital energies). */
module CclibIo {
  import opened Wrappers
  import opened Text

  // ---------------------------------------------------------------------------
  // Sequences of sequences

  function Sum(xs: seq<nat>): nat {
    if |xs| == 0 then 0 else xs[0] + Sum(xs[1..])
  }

  /** The sequences one after the other. */
  function Concat<T>(xss: seq<seq<T>>): seq<T> {
    if |xss| == 0 then [] else xss[0] + Concat(xss[1..])
  }

  function Lengths<T>(xss: seq<seq<T>>): (r: seq<nat>)
    ensures |r| == |xss| && forall i :: 0 <= i < |xss| ==> r[i] == |xss[i]|
  {
    seq(|xss|, i requires 0 <= i < |xss| => |xss[i]|)
  }

  lemma {:induction false} ConcatLength<T>(xss: seq<seq<T>>)
    ensures |Concat(xss)| == Sum(Lengths(xss))
  {
    if |xss| > 0 {
      ConcatLength(xss[1..]);
      assert Lengths(xss[1..]) == Lengths(xss)[1..];
    }
  }

  /** Every row has `w` elements. */
  predicate UniformRows<T>(xss: seq<seq<T>>, w: nat) {
    forall k :: 0 <= k < |xss| ==> |xss[k]| == w
  }

  lemma {:induction false} ConcatUniformLength<T>(xss: seq<seq<T>>, w: nat)
    requires UniformRows(xss, w)
    ensures |Concat(xss)| == |xss| * w
  {
    if |xss| > 0 {
      ConcatUniformLength(xss[1..], w);
      assert |xss| * w == w + (|xss| - 1) * w;
    }
  }

  /** With rows of one width `w`, element `j` of row `k` sits at `k * w + j`. */
  lemma {:induction false} ConcatUniformAt<T>(xss: seq<seq<T>>, w: nat, k: nat, j: nat)
    requires UniformRows(xss, w) && k < |xss| && j < w
    ensures k * w + j < |Concat(xss)| && Concat(xss)[k * w + j] == xss[k][j]
  {
    ConcatUniformLength(xss, w);
    assert (k + 1) * w <= |xss| * w;
    if k > 0 {
      ConcatUniformAt(xss[1..], w, k - 1, j);
      assert k * w + j == w + ((k - 1) * w + j);
      assert xss[1..][k - 1] == xss[k];
    }
  }

  // ---------------------------------------------------------------------------
  // Basis sets

  /** One contracted shell of an atom's basis: its angular-momentum symbol and
      its primitives, each an exponent and a coefficient. */
  datatype Shell = Shell(symbol: string, primitives: seq<(real, real)>)

  /** The flattened basis of the chemical JSON. */
  datatype CjsonBasis = CjsonBasis(coefficients: seq<real>, exponents: seq<real>, primitivesPerShell: seq<nat>,
                                   shellToAtomMap: seq<nat>, shellTypes: seq<nat>)

  datatype BasisError = UnknownShell(symbol: string)

  /** The shell labels in order of angular momentum: `s` is 0, ..., `o` is 11. */
  const ShellLabels: seq<string> := ["s", "p", "d", "f", "g", "h", "i", "k", "l", "m", "n", "o"]

  /** The angular momentum of a shell label, in either case. */
  function ShellType(symbol: string): (r: Option<nat>)
    ensures r.None? <==> Lower(symbol) !in ShellLabels
    ensures r.Some? ==> r.value < |ShellLabels| && ShellLabels[r.value] == Lower(symbol)
  {
    var l := Lower(symbol);
    if l == "s" then Some(0) else if l == "p" then Some(1) else if l == "d" then Some(2)
    else if l == "f" then Some(3) else if l == "g" then Some(4) else if l == "h" then Some(5)
    else if l == "i" then Some(6) else if l == "k" then Some(7) else if l == "l" then Some(8)
    else if l == "m" then Some(9) else if l == "n" then Some(10) else if l == "o" then Some(11)
    else None
  }

  /** Upper- and lower-case labels name the same shell. */
  lemma ShellTypeIgnoresCase(symbol: string)
    ensures ShellType(symbol) == ShellType(Lower(symbol))
  {
    LowerIdempotent(symbol);
  }

  function Exponents(ps: seq<(real, real)>): (r: seq<real>)
    ensures |r| == |ps| && forall i :: 0 <= i < |ps| ==> r[i] == ps[i].0
  {
    seq(|ps|, i requires 0 <= i < |ps| => ps[i].0)
  }

  function Coefficients(ps: seq<(real, real)>): (r: seq<real>)
    ensures |r| == |ps| && forall i :: 0 <= i < |ps| ==> r[i] == ps[i].1
  {
    seq(|ps|, i requires 0 <= i < |ps| => ps[i].1)
  }

  /** The shells of every atom, atom by atom, each with its atom's index. */
  function AtomShells(basis: seq<seq<Shell>>): (r: seq<(nat, Shell)>)
    ensures forall k :: 0 <= k < |r| ==> r[k].0 < |basis|
  {
    if |basis| == 0 then []
    else
      var last := |basis| - 1;
      AtomShells(basis[..last]) + seq(|basis[last]|, k requires 0 <= k < |basis[last]| => (last, basis[last][k]))
  }

  /** Each shell's atom comes no earlier than the atom of any shell before it. */
  ghost predicate AtomsInOrder(shells: seq<(nat, Shell)>) {
    forall j, k :: 0 <= j < k < |shells| ==> shells[j].0 <= shells[k].0
  }

  /** The shells of atom `i` come after those of every atom before it. */
  lemma {:induction false} AtomShellsOrdered(basis: seq<seq<Shell>>)
    ensures AtomsInOrder(AtomShells(basis))
  {
    if |basis| > 0 {
      var last := |basis| - 1;
      var front := AtomShells(basis[..last]);
      AtomShellsOrdered(basis[..last]);
      var tail := seq(|basis[last]|, k requires 0 <= k < |basis[last]| => (last, basis[last][k]));
      var r := AtomShells(basis);
      assert r == front + tail;
      forall j, k | 0 <= j < k < |r|
        ensures r[j].0 <= r[k].0
      {
        if k >= |front| {
          assert r[k] == tail[k - |front|];
          if j < |front| {
            assert r[j] == front[j];
            assert front[j].0 < |basis[..last]| == last;
          } else {
            assert r[j] == tail[j - |front|];
          }
        } else {
          assert r[j] == front[j] && r[k] == front[k];
        }
      }
    }
  }

  /** The flattening loop of `_cclib_to_cjson_basis` over the shells in order.
      The first shell whose label is unknown fails the conversion. */
  function FlattenShells(shells: seq<(nat, Shell)>): (r: Result<CjsonBasis, BasisError>)
    ensures r.Err? <==> exists k :: 0 <= k < |shells| && ShellType(shells[k].1.symbol).None?
    ensures r.Ok? ==> var b := r.value;
                      && |b.primitivesPerShell| == |shells| && |b.shellToAtomMap| == |shells|
                      && |b.shellTypes| == |shells|
                      && |b.exponents| == Sum(b.primitivesPerShell) && |b.coefficients| == Sum(b.primitivesPerShell)
    ensures r.Ok? ==> forall k :: 0 <= k < |shells| ==>
                        && r.value.primitivesPerShell[k] == |shells[k].1.primitives|
                        && r.value.shellToAtomMap[k] == shells[k].0
                        && ShellType(shells[k].1.symbol) == Some(r.value.shellTypes[k])
    decreases |shells|
  {
    if |shells| == 0 then Ok(CjsonBasis([], [], [], [], []))
    else
      var (atom, shell) := shells[0];
      match ShellType(shell.symbol)
      case None => Err(UnknownShell(Lower(shell.symbol)))
      case Some(t) =>
        var rest := FlattenShells(shells[1..]);
        if rest.Err? then
          Err(rest.error)
        else
          var b := rest.value;
          var n := |shell.primitives|;
          var r := CjsonBasis(Coefficients(shell.primitives) + b.coefficients,
                              Exponents(shell.primitives) + b.exponents, [n] + b.primitivesPerShell,
                              [atom] + b.shellToAtomMap, [t] + b.shellTypes);
          FlattenStep(shells, t, b);
          Ok(r)
  }

  /** `b` has one entry per shell of `shells`, with that shell's primitive
      count, atom and code, and one exponent and coefficient per primitive. */
  ghost predicate FlattenedFrom(shells: seq<(nat, Shell)>, b: CjsonBasis) {
    && |b.primitivesPerShell| == |shells| && |b.shellToAtomMap| == |shells| && |b.shellTypes| == |shells|
    && |b.exponents| == Sum(b.primitivesPerShell) && |b.coefficients| == Sum(b.primitivesPerShell)
    && forall k :: 0 <= k < |shells| ==>
         && b.primitivesPerShell[k] == |shells[k].1.primitives|
         && b.shellToAtomMap[k] == shells[k].0
         && ShellType(shells[k].1.symbol) == Some(b.shellTypes[k])
  }

  /** Putting the first shell in front of the flattened rest flattens all. */
  lemma FlattenStep(shells: seq<(nat, Shell)>, t: nat, b: CjsonBasis)
    requires |shells| > 0 && ShellType(shells[0].1.symbol) == Some(t)
    requires FlattenedFrom(shells[1..], b)
    ensures var ps := shells[0].1.primitives;
            FlattenedFrom(shells, CjsonBasis(Coefficients(ps) + b.coefficients, Exponents(ps) + b.exponents,
                                             [|ps|] + b.primitivesPerShell, [shells[0].0] + b.shellToAtomMap,
                                             [t] + b.shellTypes))
  {
    var ps := shells[0].1.primitives;
    var counts := [|ps|] + b.primitivesPerShell;
    assert counts[1..] == b.primitivesPerShell;
    assert Sum(counts) == |ps| + Sum(b.primitivesPerShell);
    assert forall k :: 1 <= k < |shells| ==> shells[k] == shells[1..][k - 1];
  }

  /** Every shell of every atom appears, tagged with its atom. */
  lemma {:induction false} AtomShellsComplete(basis: seq<seq<Shell>>)
    ensures forall i, j :: 0 <= i < |basis| && 0 <= j < |basis[i]| ==> (i, basis[i][j]) in AtomShells(basis)
  {
    if |basis| > 0 {
      var last := |basis| - 1;
      var front := AtomShells(basis[..last]);
      AtomShellsComplete(basis[..last]);
      var tail := seq(|basis[last]|, k requires 0 <= k < |basis[last]| => (last, basis[last][k]));
      var r := AtomShells(basis);
      assert r == front + tail;
      forall i, j | 0 <= i < |basis| && 0 <= j < |basis[i]|
        ensures (i, basis[i][j]) in r
      {
        if i < last {
          assert basis[..last][i] == basis[i];
          assert (i, basis[..last][i][j]) in front;
        } else {
          assert r[|front| + j] == tail[j];
        }
      }
    }
  }

  /** Nothing but a shell of an atom, tagged with that atom, appears. */
  lemma {:induction false} AtomShellsSound(basis: seq<seq<Shell>>)
    ensures forall p :: p in AtomShells(basis) ==>
              exists i, j :: 0 <= i < |basis| && 0 <= j < |basis[i]| && p == (i, basis[i][j])
  {
    if |basis| > 0 {
      var last := |basis| - 1;
      var front := AtomShells(basis[..last]);
      AtomShellsSound(basis[..last]);
      var tail := seq(|basis[last]|, k requires 0 <= k < |basis[last]| => (last, basis[last][k]));
      var r := AtomShells(basis);
      assert r == front + tail;
      forall p | p in r
        ensures exists i, j :: 0 <= i < |basis| && 0 <= j < |basis[i]| && p == (i, basis[i][j])
      {
        var k :| 0 <= k < |r| && r[k] == p;
        if k < |front| {
          assert front[k] in front;
          assert r[k] == front[k];
          var i, j :| 0 <= i < |basis[..last]| && 0 <= j < |basis[..last][i]| && front[k] == (i, basis[..last][i][j]);
          assert basis[..last][i] == basis[i];
          assert 0 <= i < |basis| && 0 <= j < |basis[i]| && r[k] == (i, basis[i][j]);
        } else {
          var j := k - |front|;
          assert r[k] == tail[j] == (last, basis[last][j]);
          assert 0 <= last < |basis| && 0 <= j < |basis[last]| && r[k] == (last, basis[last][j]);
        }
      }
    } else {
      assert AtomShells(basis) == [];
    }
  }

  /** Some shell of some atom has a label that is not a known shell type. */
  ghost predicate HasUnknownShell(basis: seq<seq<Shell>>) {
    exists i, j :: 0 <= i < |basis| && 0 <= j < |basis[i]| && ShellType(basis[i][j].symbol).None?
  }

  /** `_cclib_to_cjson_basis`: it fails exactly when some atom has a shell with
      an unknown label, and otherwise gives one entry per shell of the basis. */
  function ConvertBasis(basis: seq<seq<Shell>>): (r: Result<CjsonBasis, BasisError>)
    ensures r.Err? <==> HasUnknownShell(basis)
    ensures r.Ok? ==> |r.value.shellTypes| == |AtomShells(basis)|
  {
    UnknownShellListed(basis);
    FlattenShells(AtomShells(basis))
  }

  /** A shell with an unknown label is in the basis iff it is among the
      listed shells. */
  lemma UnknownShellListed(basis: seq<seq<Shell>>)
    ensures HasUnknownShell(basis) <==>
              exists k :: 0 <= k < |AtomShells(basis)| && ShellType(AtomShells(basis)[k].1.symbol).None?
  {
    if HasUnknownShell(basis) {
      UnknownShellIsListed(basis);
    }
    if k :| 0 <= k < |AtomShells(basis)| && ShellType(AtomShells(basis)[k].1.symbol).None? {
      ListedShellIsInBasis(basis, k);
    }
  }

  /** An unknown shell of the basis is among the listed shells. */
  lemma UnknownShellIsListed(basis: seq<seq<Shell>>)
    requires HasUnknownShell(basis)
    ensures exists k :: 0 <= k < |AtomShells(basis)| && ShellType(AtomShells(basis)[k].1.symbol).None?
  {
    var i, j :| 0 <= i < |basis| && 0 <= j < |basis[i]| && ShellType(basis[i][j].symbol).None?;
    AtomShellsComplete(basis);
    var shells := AtomShells(basis);
    assert (i, basis[i][j]) in shells;
    var k :| 0 <= k < |shells| && shells[k] == (i, basis[i][j]);
    assert ShellType(shells[k].1.symbol).None?;
  }

  /** A listed shell with an unknown label is a shell of the basis. */
  lemma ListedShellIsInBasis(basis: seq<seq<Shell>>, k: int)
    requires 0 <= k < |AtomShells(basis)| && ShellType(AtomShells(basis)[k].1.symbol).None?
    ensures HasUnknownShell(basis)
  {
    var shells := AtomShells(basis);
    AtomShellsSound(basis);
    assert shells[k] in shells;
    var i, j :| 0 <= i < |basis| && 0 <= j < |basis[i]| && shells[k] == (i, basis[i][j]);
    assert ShellType(basis[i][j].symbol).None?;
  }

  /** One entry per shell in atom-then-shell order; the atom map never
      decreases and names only atoms of the basis; there is one exponent and
      one coefficient per primitive. */
  lemma ConvertBasisShape(basis: seq<seq<Shell>>)
    requires ConvertBasis(basis).Ok?
    ensures var b := ConvertBasis(basis).value;
            && |b.shellToAtomMap| == |b.primitivesPerShell| == |b.shellTypes| == |AtomShells(basis)|
            && (forall j, k :: 0 <= j < k < |b.shellToAtomMap| ==> b.shellToAtomMap[j] <= b.shellToAtomMap[k])
            && (forall k :: 0 <= k < |b.shellToAtomMap| ==> b.shellToAtomMap[k] < |basis|)
            && |b.exponents| == |b.coefficients| == Sum(b.primitivesPerShell)
  {
    AtomShellsOrdered(basis);
  }

  /** A flattened basis whose arrays fit together. */
  predicate WellShaped(b: CjsonBasis) {
    && |b.shellToAtomMap| == |b.primitivesPerShell| && |b.shellTypes| == |b.primitivesPerShell|
    && |b.exponents| == Sum(b.primitivesPerShell) && |b.coefficients| == Sum(b.primitivesPerShell)
    && forall k :: 0 <= k < |b.shellTypes| ==> b.shellTypes[k] < |ShellLabels|
  }

  /** The first shell's share of a flattened basis removed. */
  function Tail(b: CjsonBasis): (r: CjsonBasis)
    requires WellShaped(b) && |b.primitivesPerShell| > 0
    ensures WellShaped(r)
  {
    var n := b.primitivesPerShell[0];
    CjsonBasis(b.coefficients[n..], b.exponents[n..], b.primitivesPerShell[1..], b.shellToAtomMap[1..],
               b.shellTypes[1..])
  }

  function Zip(xs: seq<real>, ys: seq<real>): (r: seq<(real, real)>)
    requires |xs| == |ys|
    ensures |r| == |xs| && forall i :: 0 <= i < |xs| ==> r[i] == (xs[i], ys[i])
  {
    seq(|xs|, i requires 0 <= i < |xs| => (xs[i], ys[i]))
  }

  /** Reading a flattened basis back into shells. */
  function Unflatten(b: CjsonBasis): (r: seq<(nat, Shell)>)
    requires WellShaped(b)
    decreases |b.primitivesPerShell|
  {
    if |b.primitivesPerShell| == 0 then []
    else
      var n := b.primitivesPerShell[0];
      [(b.shellToAtomMap[0], Shell(ShellLabels[b.shellTypes[0]], Zip(b.exponents[..n], b.coefficients[..n])))]
        + Unflatten(Tail(b))
  }

  /** The shells with their labels in lower case. */
  function Canonical(shells: seq<(nat, Shell)>): seq<(nat, Shell)> {
    seq(|shells|, k requires 0 <= k < |shells| => (shells[k].0, Shell(Lower(shells[k].1.symbol), shells[k].1.primitives)))
  }

  /** The flattened first shell followed by the flattened rest. */
  lemma FlattenCons(shells: seq<(nat, Shell)>)
    requires |shells| > 0 && FlattenShells(shells).Ok?
    ensures FlattenShells(shells[1..]).Ok? && ShellType(shells[0].1.symbol).Some?
    ensures var b := FlattenShells(shells).value;
            var rest := FlattenShells(shells[1..]).value;
            var ps := shells[0].1.primitives;
            b == CjsonBasis(Coefficients(ps) + rest.coefficients, Exponents(ps) + rest.exponents,
                            [|ps|] + rest.primitivesPerShell, [shells[0].0] + rest.shellToAtomMap,
                            [ShellType(shells[0].1.symbol).value] + rest.shellTypes)
  {
  }

  /** A flattened basis has arrays that fit together. */
  lemma FlattenWellShaped(shells: seq<(nat, Shell)>)
    requires FlattenShells(shells).Ok?
    ensures WellShaped(FlattenShells(shells).value)
  {
    var b := FlattenShells(shells).value;
    forall k | 0 <= k < |b.shellTypes|
      ensures b.shellTypes[k] < |ShellLabels|
    {
      assert ShellType(shells[k].1.symbol) == Some(b.shellTypes[k]);
    }
  }

  /** Splitting a concatenation at the end of its first part. */
  lemma SplitAppend<T>(a: seq<T>, b: seq<T>)
    ensures (a + b)[..|a|] == a && (a + b)[|a|..] == b
  {
  }

  /** The exponents and coefficients of primitives zip back into them. */
  lemma ZipPrimitives(ps: seq<(real, real)>)
    ensures Zip(Exponents(ps), Coefficients(ps)) == ps
  {
    var z := Zip(Exponents(ps), Coefficients(ps));
    forall i | 0 <= i < |ps|
      ensures z[i] == ps[i]
    {
    }
  }

  /** The first shell of a flattened basis, read back. */
  lemma UnflattenHead(shells: seq<(nat, Shell)>)
    requires |shells| > 0 && FlattenShells(shells).Ok?
    ensures WellShaped(FlattenShells(shells).value)
    ensures var b := FlattenShells(shells).value;
            var n := b.primitivesPerShell[0];
            && Zip(b.exponents[..n], b.coefficients[..n]) == shells[0].1.primitives
            && ShellLabels[b.shellTypes[0]] == Lower(shells[0].1.symbol)
            && b.shellToAtomMap[0] == shells[0].0
            && Tail(b) == FlattenShells(shells[1..]).value
  {
    FlattenCons(shells);
    FlattenWellShaped(shells);
    FlattenWellShaped(shells[1..]);
    var b := FlattenShells(shells).value;
    var rest := FlattenShells(shells[1..]).value;
    var ps := shells[0].1.primitives;
    SplitAppend(Exponents(ps), rest.exponents);
    SplitAppend(Coefficients(ps), rest.coefficients);
    SplitAppend([|ps|], rest.primitivesPerShell);
    SplitAppend([shells[0].0], rest.shellToAtomMap);
    SplitAppend([ShellType(shells[0].1.symbol).value], rest.shellTypes);
    ZipPrimitives(ps);
  }

  /** Canonical spelling shell by shell: the first, then the rest. */
  lemma CanonicalCons(shells: seq<(nat, Shell)>)
    requires |shells| > 0
    ensures Canonical(shells)
         == [(shells[0].0, Shell(Lower(shells[0].1.symbol), shells[0].1.primitives))] + Canonical(shells[1..])
  {
    var c := Canonical(shells);
    var rest := Canonical(shells[1..]);
    forall k | 1 <= k < |c|
      ensures c[k] == rest[k - 1]
    {
      assert shells[1..][k - 1] == shells[k];
    }
  }

  /** The flattening loses nothing but the case of the labels: every shell,
      its atom and its primitives can be read back. */
  lemma {:induction false} FlattenRoundTrip(shells: seq<(nat, Shell)>)
    requires FlattenShells(shells).Ok?
    ensures WellShaped(FlattenShells(shells).value)
    ensures Unflatten(FlattenShells(shells).value) == Canonical(shells)
    decreases |shells|
  {
    FlattenWellShaped(shells);
    if |shells| > 0 {
      var b := FlattenShells(shells).value;
      UnflattenHead(shells);
      FlattenCons(shells);
      FlattenRoundTrip(shells[1..]);
      CanonicalCons(shells);
      assert Unflatten(b) == [Unflatten(b)[0]] + Unflatten(Tail(b));
    }
  }

  // ---------------------------------------------------------------------------
  // Orbital coefficients and displacements

  datatype ReadError =
    | NoOrbitalSets              // an empty list of coefficient or energy sets indexed with `[-1]`
    | BasisFailed(e: BasisError) // a shell label outside the table
    | NotADict(section: string)  // a section of the document that is not a dictionary
    | NoLength(key: string)      // `len()` of a value that has none

  /** `_cclib_to_cjson_mocoeffs`: the coefficients of the last set only, one
      orbital after the other. */
  function MoCoefficients(coeffs: seq<seq<seq<real>>>): (r: Result<seq<real>, ReadError>)
    ensures r.Err? <==> |coeffs| == 0
    ensures r.Ok? ==> r.value == Concat(coeffs[|coeffs| - 1])
  {
    if |coeffs| == 0 then Err(NoOrbitalSets) else Ok(Concat(coeffs[|coeffs| - 1]))
  }

  /** With `n` coefficients per orbital, coefficient `j` of orbital `k` of the
      last set is entry `k * n + j`, and there are orbitals times `n` of them. */
  lemma MoCoefficientsLayout(coeffs: seq<seq<seq<real>>>, n: nat, k: nat, j: nat)
    requires |coeffs| > 0 && UniformRows(coeffs[|coeffs| - 1], n)
    requires k < |coeffs[|coeffs| - 1]| && j < n
    ensures var r := MoCoefficients(coeffs).value;
            |r| == |coeffs[|coeffs| - 1]| * n && k * n + j < |r| && r[k * n + j] == coeffs[|coeffs| - 1][k][j]
  {
    ConcatUniformLength(coeffs[|coeffs| - 1], n);
    ConcatUniformAt(coeffs[|coeffs| - 1], n, k, j);
  }

  /** `_cclib_to_cjson_vibdisps`: one flattened displacement per mode. */
  function VibrationalDisplacements(vibdisps: seq<seq<seq<real>>>): (r: seq<seq<real>>)
    ensures |r| == |vibdisps|
    ensures forall m :: 0 <= m < |vibdisps| ==> |r[m]| == Sum(Lengths(vibdisps[m]))
  {
    var r := seq(|vibdisps|, m requires 0 <= m < |vibdisps| => Concat(vibdisps[m]));
    forall m | 0 <= m < |vibdisps|
      ensures |r[m]| == Sum(Lengths(vibdisps[m]))
    {
      ConcatLength(vibdisps[m]);
    }
    r
  }

  /** Each mode of `a` atoms times three coordinates flattens to `3a` numbers,
      atom after atom: coordinate `x` of atom `i` is entry `i * 3 + x`. */
  lemma DisplacementLayout(vibdisps: seq<seq<seq<real>>>, atoms: nat, m: nat, i: nat, x: nat)
    requires m < |vibdisps| && |vibdisps[m]| == atoms && UniformRows(vibdisps[m], 3)
    requires i < atoms && x < 3
    ensures var r := VibrationalDisplacements(vibdisps);
            |r[m]| == atoms * 3 && i * 3 + x < |r[m]| && r[m][i * 3 + x] == vibdisps[m][i][x]
  {
    ConcatUniformLength(vibdisps[m], 3);
    ConcatUniformAt(vibdisps[m], 3, i, x);
  }
}
