/** Client-side string and index helpers: the camel-case splitter used for
    property names and the orbital index behind `homo` / `lumo`. */
module ClientUtils {
  import opened Wrappers
  import opened Text

  // ---------------------------------------------------------------------------
  // camel_to_space

  /** A space goes in front of position `i` when it holds an upper-case letter
      that follows a lower-case one, or that is not the first character and is
      followed by a lower-case one. */
  predicate BreakAt(s: string, i: nat) {
    0 < i < |s| && IsUpper(s[i]) && (IsLower(s[i - 1]) || (i + 1 < |s| && IsLower(s[i + 1])))
  }

  /** The substitution pass from position `i` on: every character kept, a space
      in front of each break. */
  function SpacedFrom(s: string, i: nat): string
    requires i <= |s|
    decreases |s| - i
  {
    if i == |s| then "" else (if BreakAt(s, i) then " " else "") + [s[i]] + SpacedFrom(s, i + 1)
  }

  /** `camel_to_space`: the spaces inserted, then the first character upper-cased. */
  function CamelToSpace(s: string): (r: string)
    ensures |s| == 0 <==> |r| == 0
    ensures |s| > 0 ==> r[0] == ToUpperChar(s[0])
  {
    var t := SpacedFrom(s, 0);
    if |t| == 0 then "" else [ToUpperChar(t[0])] + t[1..]
  }

  /** The characters of `s` other than spaces, in order. */
  function NonSpace(s: string): string {
    if |s| == 0 then "" else (if s[0] == ' ' then "" else [s[0]]) + NonSpace(s[1..])
  }

  /** The number of spaces in `s`. */
  function SpaceCount(s: string): nat {
    if |s| == 0 then 0 else (if s[0] == ' ' then 1 else 0) + SpaceCount(s[1..])
  }

  /** The number of breaks at or after position `i`. */
  function BreaksFrom(s: string, i: nat): nat
    requires i <= |s|
    decreases |s| - i
  {
    if i == |s| then 0 else (if BreakAt(s, i) then 1 else 0) + BreaksFrom(s, i + 1)
  }

  /** The first character upper-cased. */
  function Capitalize(s: string): string {
    if |s| == 0 then "" else [ToUpperChar(s[0])] + s[1..]
  }

  /** Only spaces are inserted: removing every space from the result leaves
      the input's own non-space characters, the first one upper-cased. */
  lemma CamelToSpaceOnlyInsertsSpaces(s: string)
    ensures NonSpace(CamelToSpace(s)) == NonSpace(Capitalize(s))
  {
    if |s| > 0 {
      assert !BreakAt(s, 0);
      var t := SpacedFrom(s, 0);
      assert t == [s[0]] + SpacedFrom(s, 1);
      SpacedFromNonSpace(s, 1);
      assert s[1..] == s[1..][0..];
      assert CamelToSpace(s) == [ToUpperChar(s[0])] + SpacedFrom(s, 1);
      NonSpaceConcat([ToUpperChar(s[0])], SpacedFrom(s, 1));
      NonSpaceConcat([ToUpperChar(s[0])], s[1..]);
    }
  }

  /** Exactly one space is inserted per break. */
  lemma CamelToSpaceCountsBreaks(s: string)
    ensures SpaceCount(CamelToSpace(s)) == SpaceCount(Capitalize(s)) + BreaksFrom(s, 0)
  {
    if |s| > 0 {
      assert !BreakAt(s, 0);
      SpacedFromSpaces(s, 1);
      assert CamelToSpace(s) == [ToUpperChar(s[0])] + SpacedFrom(s, 1);
      SpaceCountConcat([ToUpperChar(s[0])], SpacedFrom(s, 1));
      SpaceCountConcat([ToUpperChar(s[0])], s[1..]);
    }
  }

  /** A name with no break, such as a single word or an all-capitals
      abbreviation, is only capitalised. */
  lemma CamelToSpaceWithoutBreaks(s: string)
    requires BreaksFrom(s, 0) == 0
    ensures CamelToSpace(s) == Capitalize(s)
  {
    SpacedFromUnbroken(s, 0);
    assert s[0..] == s;
  }

  lemma {:induction false} SpacedFromUnbroken(s: string, i: nat)
    requires i <= |s| && BreaksFrom(s, i) == 0
    ensures SpacedFrom(s, i) == s[i..]
    decreases |s| - i
  {
    if i < |s| {
      SpacedFromUnbroken(s, i + 1);
      assert s[i..] == [s[i]] + s[i + 1..];
    }
  }

  /** A lower-to-upper step gets a space; an upper-case run keeps its last
      letter with the word that follows it. */
  lemma CamelToSpaceExamples()
    ensures CamelToSpace("aB") == "A B"
    ensures CamelToSpace("ABc") == "A Bc"
  {
    assert BreakAt("aB", 1);
    assert SpacedFrom("aB", 2) == "";
    assert SpacedFrom("aB", 0) == "a B";
    assert !BreakAt("ABc", 2);
    assert BreakAt("ABc", 1);
    assert SpacedFrom("ABc", 3) == "";
    assert SpacedFrom("ABc", 2) == "c";
    assert SpacedFrom("ABc", 0) == "A Bc";
  }

  lemma {:induction false} SpacedFromNonSpace(s: string, i: nat)
    requires i <= |s|
    ensures NonSpace(SpacedFrom(s, i)) == NonSpace(s[i..])
    decreases |s| - i
  {
    if i < |s| {
      SpacedFromNonSpace(s, i + 1);
      var gap := if BreakAt(s, i) then " " else "";
      assert NonSpace(gap) == "";
      NonSpaceConcat(gap, [s[i]] + SpacedFrom(s, i + 1));
      NonSpaceConcat([s[i]], SpacedFrom(s, i + 1));
      assert s[i..] == [s[i]] + s[i + 1..];
      NonSpaceConcat([s[i]], s[i + 1..]);
    }
  }

  lemma {:induction false} SpacedFromSpaces(s: string, i: nat)
    requires i <= |s|
    ensures SpaceCount(SpacedFrom(s, i)) == SpaceCount(s[i..]) + BreaksFrom(s, i)
    decreases |s| - i
  {
    if i < |s| {
      SpacedFromSpaces(s, i + 1);
      var gap := if BreakAt(s, i) then " " else "";
      SpaceCountConcat(gap, [s[i]] + SpacedFrom(s, i + 1));
      SpaceCountConcat([s[i]], SpacedFrom(s, i + 1));
      assert s[i..] == [s[i]] + s[i + 1..];
      SpaceCountConcat([s[i]], s[i + 1..]);
    }
  }

  lemma {:induction false} NonSpaceConcat(a: string, b: string)
    ensures NonSpace(a + b) == NonSpace(a) + NonSpace(b)
    decreases |a|
  {
    if |a| > 0 {
      assert (a + b)[1..] == a[1..] + b;
      NonSpaceConcat(a[1..], b);
    } else {
      assert a + b == b;
    }
  }

  lemma {:induction false} SpaceCountConcat(a: string, b: string)
    ensures SpaceCount(a + b) == SpaceCount(a) + SpaceCount(b)
    decreases |a|
  {
    if |a| > 0 {
      assert (a + b)[1..] == a[1..] + b;
      SpaceCountConcat(a[1..], b);
    } else {
      assert a + b == b;
    }
  }

  // ---------------------------------------------------------------------------
  // The orbital index of calculate_mo

  /** The orbital asked for: an index, or a name such as `HOMO`. */
  datatype Mo = MoIndex(index: int) | MoName(name: string)

  datatype MoError =
    | UnsupportedMo(name: string)
    | NoElectronCount

  /** Python's `int(x / 2)`: the half truncated toward zero. */
  function HalfTowardZero(e: int): int {
    if e >= 0 then e / 2 else -((-e) / 2)
  }

  /** The first electron count found, looking in the orbitals, the basis set
      and the properties, in that order. */
  function ElectronCount(counts: seq<Option<int>>): Option<int> {
    if |counts| == 0 then None else if counts[0].Some? then counts[0] else ElectronCount(counts[1..])
  }

  /** The index `calculate_mo` evaluates: an index passes through; a name must
      be `homo` or `lumo` in any case and needs an electron count; the homo
      is the half of the count less one and the lumo the next orbital. */
  function OrbitalIndex(mo: Mo, counts: seq<Option<int>>): (r: Result<int, MoError>)
    ensures mo.MoIndex? ==> r == Ok(mo.index)
    ensures mo.MoName? && Lower(mo.name) != "homo" && Lower(mo.name) != "lumo" ==>
              r == Err(UnsupportedMo(Lower(mo.name)))
    ensures mo.MoName? && (Lower(mo.name) == "homo" || Lower(mo.name) == "lumo") ==>
              (r == Err(NoElectronCount) <==> forall k :: 0 <= k < |counts| ==> counts[k].None?)
  {
    match mo
    case MoIndex(i) => Ok(i)
    case MoName(name) =>
      var n := Lower(name);
      if n != "homo" && n != "lumo" then Err(UnsupportedMo(n))
      else
        FirstCountFound(counts);
        match ElectronCount(counts)
        case None => Err(NoElectronCount)
        case Some(e) => Ok(if n == "homo" then HalfTowardZero(e) - 1 else HalfTowardZero(e))
  }

  lemma {:induction false} FirstCountFound(counts: seq<Option<int>>)
    ensures ElectronCount(counts).None? <==> forall k :: 0 <= k < |counts| ==> counts[k].None?
    ensures ElectronCount(counts).Some? ==> exists k :: 0 <= k < |counts| && counts[k] == ElectronCount(counts)
                                               && forall j :: 0 <= j < k ==> counts[j].None?
  {
    if |counts| > 0 && counts[0].None? {
      FirstCountFound(counts[1..]);
      if ElectronCount(counts).Some? {
        var k :| 0 <= k < |counts[1..]| && counts[1..][k] == ElectronCount(counts[1..])
                 && forall j :: 0 <= j < k ==> counts[1..][j].None?;
        assert counts[k + 1] == ElectronCount(counts);
        assert forall j :: 0 <= j < k + 1 ==> counts[j].None? by {
          forall j | 0 <= j < k + 1
            ensures counts[j].None?
          {
            if j > 0 {
              assert counts[j] == counts[1..][j - 1];
            }
          }
        }
      } else {
        forall k | 0 <= k < |counts|
          ensures counts[k].None?
        {
          if k > 0 {
            assert counts[k] == counts[1..][k - 1];
          }
        }
      }
    }
  }

  /** The lumo is the orbital right after the homo, whatever the spelling. */
  lemma LumoFollowsHomo(homo: string, lumo: string, counts: seq<Option<int>>)
    requires Lower(homo) == "homo" && Lower(lumo) == "lumo"
    requires exists k :: 0 <= k < |counts| && counts[k].Some?
    ensures OrbitalIndex(MoName(homo), counts).Ok? && OrbitalIndex(MoName(lumo), counts).Ok?
    ensures OrbitalIndex(MoName(lumo), counts).value == OrbitalIndex(MoName(homo), counts).value + 1
  {
    FirstCountFound(counts);
  }

  /** For a non-negative count `e` the homo holds the last of the `e / 2`
      doubly occupied orbitals, numbered from zero. */
  lemma HomoIsLastOccupied(homo: string, counts: seq<Option<int>>)
    requires Lower(homo) == "homo"
    requires ElectronCount(counts).Some? && ElectronCount(counts).value >= 0
    ensures var e := ElectronCount(counts).value;
            OrbitalIndex(MoName(homo), counts).Ok?
            && 2 * (OrbitalIndex(MoName(homo), counts).value + 1) <= e
            < 2 * (OrbitalIndex(MoName(homo), counts).value + 1) + 2
  {
  }
}
