/** Chemical reaction equations of the form `A + B => C + D`. */
module Recipes {
  import opened Wrappers
  import opened Text

  /** The reactant and product names of a parsed equation. */
  datatype Reaction = Reaction(reactants: seq<string>, products: seq<string>)

  /** Unpacking `equation.split('=>')` into two names fails unless it yields
      exactly two sides; `sides` is how many it yielded. */
  datatype ReactionError = WrongSideCount(sides: nat)

  /** A species name as parsing leaves it: stripped, without `+` and without `=>`. */
  predicate Species(s: string) {
    Stripped(s) && '+' !in s && !Contains(s, "=>")
  }

  function StripEach(xs: seq<string>): (ys: seq<string>)
    ensures |ys| == |xs|
    ensures forall i :: 0 <= i < |xs| ==> ys[i] == Strip(xs[i])
  {
    seq(|xs|, i requires 0 <= i < |xs| => Strip(xs[i]))
  }

  /** Constructing a `Reaction` from its equation text. */
  function Parse(equation: string): (r: Result<Reaction, ReactionError>)
    ensures r.Ok? <==> Occurrences(equation, "=>") == 1
    ensures r.Err? ==> r.error.sides == Occurrences(equation, "=>") + 1
    ensures r.Ok? ==> |r.value.reactants| >= 1 && |r.value.products| >= 1
    ensures r.Ok? ==> forall i :: 0 <= i < |r.value.reactants| ==> Species(r.value.reactants[i])
    ensures r.Ok? ==> forall i :: 0 <= i < |r.value.products| ==> Species(r.value.products[i])
  {
    SplitCount(equation, "=>");
    var sides := Split(equation, "=>");
    if |sides| != 2 then Err(WrongSideCount(|sides|))
    else
      SplitPiecesFree(equation, "=>");
      SideSpecies(sides[0]);
      SideSpecies(sides[1]);
      Ok(Reaction(StripEach(Split(sides[0], "+")), StripEach(Split(sides[1], "+"))))
  }

  /** Each side yields one species per `+` plus one, all of them well formed. */
  lemma SideSpecies(side: string)
    requires !Contains(side, "=>")
    ensures |StripEach(Split(side, "+"))| == Occurrences(side, "+") + 1
    ensures forall i :: 0 <= i < |Split(side, "+")| ==> Species(StripEach(Split(side, "+"))[i])
  {
    SplitCount(side, "+");
    var pieces := Split(side, "+");
    SplitPiecesFree(side, "+");
    SplitPiecesKeepAbsence(side, "+", "=>");
    forall i | 0 <= i < |pieces|
      ensures Species(Strip(pieces[i]))
    {
      StripKeepsAbsence(pieces[i], "+");
      StripKeepsAbsence(pieces[i], "=>");
      CharContains(Strip(pieces[i]), '+');
    }
  }

  /** The `equation` property: both sides joined by ` + `, separated by ` => `.
      The text of a well-formed reaction parses back to it. */
  function Equation(r: Reaction): (e: string)
    ensures WellFormed(r) ==> Parse(e) == Ok(r)
  {
    var e := Join(r.reactants, " + ") + " => " + Join(r.products, " + ");
    assert WellFormed(r) ==> Parse(e) == Ok(r) by {
      if WellFormed(r) {
        ParseRendered(r);
      }
    }
    e
  }

  // ---------------------------------------------------------------------------
  // Re-parsing the rendered equation

  /** The `+`-separated pieces of `a + Join(xs, " + ") + b`. */
  function Padded(xs: seq<string>, a: string, b: string): (ps: seq<string>)
    requires |xs| >= 1
    ensures |ps| == |xs|
    decreases |xs|
  {
    if |xs| == 1 then [a + xs[0] + b]
    else [a + xs[0] + " "] + Padded(xs[1..], " ", b)
  }

  lemma {:induction false} PaddedJoin(xs: seq<string>, a: string, b: string)
    requires |xs| >= 1
    ensures a + Join(xs, " + ") + b == Join(Padded(xs, a, b), "+")
    decreases |xs|
  {
    if |xs| > 1 {
      PaddedJoin(xs[1..], " ", b);
      var rest := Padded(xs[1..], " ", b);
      JoinCons(a + xs[0] + " ", rest, "+");
      assert a + Join(xs, " + ") + b
          == (a + xs[0] + " ") + "+" + (" " + Join(xs[1..], " + ") + b);
    }
  }

  lemma {:induction false} PaddedAt(xs: seq<string>, a: string, b: string, i: nat)
    requires i < |xs|
    ensures Padded(xs, a, b)[i]
         == (if i == 0 then a else " ") + xs[i] + (if i == |xs| - 1 then b else " ")
    decreases i
  {
    if i > 0 {
      PaddedAt(xs[1..], " ", b, i - 1);
    }
  }

  lemma PaddedPieces(xs: seq<string>, a: string, b: string)
    requires |xs| >= 1
    requires AllSpace(a) && AllSpace(b)
    requires forall i :: 0 <= i < |xs| ==> Species(xs[i])
    ensures forall i :: 0 <= i < |xs| ==> '+' !in Padded(xs, a, b)[i]
    ensures StripEach(Padded(xs, a, b)) == xs
  {
    var ps := Padded(xs, a, b);
    forall i | 0 <= i < |xs|
      ensures '+' !in ps[i] && Strip(ps[i]) == xs[i]
    {
      var pre := if i == 0 then a else " ";
      var post := if i == |xs| - 1 then b else " ";
      PaddedAt(xs, a, b, i);
      StripPadded(pre, xs[i], post);
      PlusFreePadding(pre, xs[i], post);
    }
  }

  /** Padding with whitespace adds no `+`. */
  lemma PlusFreePadding(a: string, x: string, b: string)
    requires AllSpace(a) && AllSpace(b) && '+' !in x
    ensures '+' !in a + x + b
  {
    var s := a + x + b;
    assert !IsSpace('+');
    forall k | 0 <= k < |s|
      ensures s[k] != '+'
    {
      if k < |a| {
        assert s[k] == a[k];
      } else if k < |a| + |x| {
        assert s[k] == x[k - |a|];
      } else {
        assert s[k] == b[k - |a| - |x|];
      }
    }
  }

  /** A species list joined by ` + ` contains no `=>`. */
  lemma {:induction false} JoinSpeciesNoArrow(xs: seq<string>)
    requires forall i :: 0 <= i < |xs| ==> Species(xs[i])
    ensures !Contains(Join(xs, " + "), "=>")
    decreases |xs|
  {
    if |xs| == 1 {
    } else if |xs| > 1 {
      JoinSpeciesNoArrow(xs[1..]);
      var rest := Join(xs[1..], " + ");
      NoCharNoPattern(" + ", "=>", 0);
      NoPatternConcat(" + ", rest, "=>");
      NoPatternConcat(xs[0], " + " + rest, "=>");
      assert Join(xs, " + ") == xs[0] + (" + " + rest);
    } else {
      NoCharNoPattern("", "=>", 0);
    }
  }

  /** Two pieces without a two-character pattern, and no straddle at the seam. */
  lemma NoPatternConcat(a: string, b: string, sub: string)
    requires |sub| == 2
    requires !Contains(a, sub) && !Contains(b, sub)
    requires !(|a| > 0 && |b| > 0 && a[|a| - 1] == sub[0] && b[0] == sub[1])
    ensures !Contains(a + b, sub)
  {
    if Contains(a + b, sub) {
      ContainsConcat2(a, b, sub);
    }
  }

  /** The rendered equation splits at its one `=>` into the padded sides. */
  lemma SplitEquation(r: Reaction)
    requires forall i :: 0 <= i < |r.reactants| ==> Species(r.reactants[i])
    requires forall i :: 0 <= i < |r.products| ==> Species(r.products[i])
    ensures Split(Join(r.reactants, " + ") + " => " + Join(r.products, " + "), "=>")
         == [Join(r.reactants, " + ") + " ", " " + Join(r.products, " + ")]
  {
    var lhs := Join(r.reactants, " + ");
    var rhs := Join(r.products, " + ");
    var x := lhs + " ";
    var y := " " + rhs;
    assert lhs + " => " + rhs == x + "=>" + y;

    // the left side, extended by the first character of `=>`, has no `=>`
    JoinSpeciesNoArrow(r.reactants);
    NoCharNoPattern(" =", "=>", 1);
    NoPatternConcat(lhs, " =", "=>");
    assert x + "=>"[..1] == lhs + " =";
    SplitAtFirst(x, "=>", y);

    // the right side has none at all
    JoinSpeciesNoArrow(r.products);
    NoCharNoPattern(" ", "=>", 0);
    NoPatternConcat(" ", rhs, "=>");
    SplitNoSeparator(y, "=>");
  }

  /** A side rendered with ` + ` and padded by spaces parses back to its species. */
  lemma ReparseSide(xs: seq<string>, a: string, b: string)
    requires |xs| >= 1
    requires AllSpace(a) && AllSpace(b)
    requires forall i :: 0 <= i < |xs| ==> Species(xs[i])
    ensures StripEach(Split(a + Join(xs, " + ") + b, "+")) == xs
  {
    PaddedJoin(xs, a, b);
    PaddedPieces(xs, a, b);
    SplitJoin(Padded(xs, a, b), '+');
  }

  /** A reaction whose sides are non-empty lists of species. */
  predicate WellFormed(r: Reaction) {
    |r.reactants| >= 1 && |r.products| >= 1
    && (forall i :: 0 <= i < |r.reactants| ==> Species(r.reactants[i]))
    && (forall i :: 0 <= i < |r.products| ==> Species(r.products[i]))
  }

  /** Parsing an equation that splits into exactly two sides. */
  lemma ParseTwoSides(equation: string, x: string, y: string)
    requires Split(equation, "=>") == [x, y]
    ensures Parse(equation) == Ok(Reaction(StripEach(Split(x, "+")), StripEach(Split(y, "+"))))
  {
  }

  /** The rendered equation of a well-formed reaction parses back to it. */
  lemma ParseRendered(r: Reaction)
    requires WellFormed(r)
    ensures Parse(Join(r.reactants, " + ") + " => " + Join(r.products, " + ")) == Ok(r)
  {
    var x := Join(r.reactants, " + ") + " ";
    var y := " " + Join(r.products, " + ");
    SplitEquation(r);
    ParseTwoSides(Join(r.reactants, " + ") + " => " + Join(r.products, " + "), x, y);
    assert "" + Join(r.reactants, " + ") + " " == x;
    ReparseSide(r.reactants, "", " ");
    assert " " + Join(r.products, " + ") + "" == y;
    ReparseSide(r.products, " ", "");
  }

  /** Rendering a parsed reaction and parsing it again gives the same reaction. */
  lemma ReparseEquation(equation: string, r: Reaction)
    requires Parse(equation) == Ok(r)
    ensures Parse(Equation(r)) == Ok(r)
  {
  }
}
