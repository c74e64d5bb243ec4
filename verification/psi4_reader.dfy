/** The psi4 output reader: the document cclib writes is completed with the
    flattened basis, the orbitals of the last iteration, the occupations,
    the vibrations with placeholder intensities and mode numbers, the
    lower-cased method metadata and the final energy. */
module Psi4Reader {
  import opened Wrappers
  import opened Text
  import opened CclibIo
  import ClientUtils
  import Visualization

  /** The metadata cclib reports. */
  datatype Metadata = Metadata(basisSet: Option<string>, functional: Option<string>, methods: Option<seq<string>>)

  /** The attributes of cclib's parsed data the reader looks at; an absent
      attribute is `None`. */
  datatype CclibData = CclibData(
    gbasis: Option<seq<seq<Shell>>>,
    mocoeffs: Option<seq<seq<seq<real>>>>,
    moenergies: Option<seq<seq<real>>>,
    nelectrons: Option<int>,
    homos: Option<seq<int>>,
    nmo: Option<nat>,
    vibfreqs: Option<seq<real>>,
    vibdisps: Option<seq<seq<seq<real>>>>,
    metadata: Option<Metadata>,
    scfenergies: Option<seq<real>>)

  /** A chemical JSON document. */
  type Doc = map<string, Json>

  // ---------------------------------------------------------------------------
  // Sections

  /** The entries of a section, empty when it is missing or not a dictionary. */
  function Section(doc: Doc, section: string): map<string, Json> {
    if section in doc && doc[section].JObj? then doc[section].fields else map[]
  }

  /** `doc.setdefault(section, {})[key] = value`: a missing section is
      created; a section that is not a dictionary cannot take the entry. */
  function SetIn(doc: Doc, section: string, key: string, value: Json): (r: Result<Doc, ReadError>)
    ensures r.Ok? <==> section !in doc || doc[section].JObj?
    ensures r.Err? ==> r.error == NotADict(section)
    ensures r.Ok? ==> r.value.Keys == doc.Keys + {section} && r.value[section].JObj?
                      && Section(r.value, section) == Section(doc, section)[key := value]
    ensures r.Ok? ==> forall s :: s in doc && s != section ==> r.value[s] == doc[s]
  {
    if section !in doc then Ok(doc[section := JObj(map[key := value])])
    else if doc[section].JObj? then Ok(doc[section := JObj(doc[section].fields[key := value])])
    else Err(NotADict(section))
  }

  /** `m[k]` is present and equal to `v`. */
  predicate Has(m: map<string, Json>, k: string, v: Json) {
    k in m && m[k] == v
  }

  /** Only `section` may differ, and it may only appear. */
  ghost predicate OnlyChanges(doc: Doc, after: Doc, section: string) {
    && after.Keys <= doc.Keys + {section}
    && doc.Keys <= after.Keys
    && forall s :: s in doc && s != section ==> after[s] == doc[s]
  }

  function RealsJson(xs: seq<real>): Json {
    JArr(seq(|xs|, i requires 0 <= i < |xs| => JReal(xs[i])))
  }

  function IntsJson(xs: seq<int>): Json {
    JArr(seq(|xs|, i requires 0 <= i < |xs| => JInt(xs[i])))
  }

  function NatsJson(xs: seq<nat>): Json {
    JArr(seq(|xs|, i requires 0 <= i < |xs| => JInt(xs[i])))
  }

  function BasisJson(b: CjsonBasis): Json {
    JObj(map["coefficients" := RealsJson(b.coefficients), "exponents" := RealsJson(b.exponents),
             "primitivesPerShell" := NatsJson(b.primitivesPerShell), "shellToAtomMap" := NatsJson(b.shellToAtomMap),
             "shellTypes" := NatsJson(b.shellTypes)])
  }

  // ---------------------------------------------------------------------------
  // Basis

  /** The converted basis replaces the document's `basisSet`. */
  function AddBasis(doc: Doc, gbasis: Option<seq<seq<Shell>>>): (r: Result<Doc, ReadError>)
    ensures gbasis.None? ==> r == Ok(doc)
    ensures gbasis.Some? ==> (r.Err? <==> ConvertBasis(gbasis.value).Err?)
    ensures r.Ok? ==> OnlyChanges(doc, r.value, "basisSet")
    ensures r.Ok? && gbasis.Some? ==> Has(r.value, "basisSet", BasisJson(ConvertBasis(gbasis.value).value))
  {
    match gbasis
    case None => Ok(doc)
    case Some(b) =>
      match ConvertBasis(b)
      case Err(e) => Err(BasisFailed(e))
      case Ok(cb) => Ok(doc["basisSet" := BasisJson(cb)])
  }

  // ---------------------------------------------------------------------------
  // Orbitals

  /** Doubly occupied orbitals up to and including the homo, empty ones after. */
  function Occupations(nmo: nat, homo: int): (r: seq<int>)
    ensures |r| == nmo
    ensures forall i :: 0 <= i < nmo ==> (r[i] == 2 <==> i <= homo) && (r[i] == 0 <==> i > homo)
  {
    seq(nmo, i requires 0 <= i < nmo => if i <= homo then 2 else 0)
  }

  function SumInts(xs: seq<int>): int {
    if |xs| == 0 then 0 else xs[0] + SumInts(xs[1..])
  }

  lemma {:induction false} SumIntsAppend(xs: seq<int>, x: int)
    ensures SumInts(xs + [x]) == SumInts(xs) + x
  {
    if |xs| > 0 {
      assert (xs + [x])[1..] == xs[1..] + [x];
      SumIntsAppend(xs[1..], x);
    } else {
      assert (xs + [x])[1..] == [];
    }
  }

  /** The occupations hold two electrons per orbital up to the homo. */
  lemma {:induction false} OccupationsHoldElectrons(nmo: nat, homo: int)
    requires -1 <= homo < nmo
    ensures SumInts(Occupations(nmo, homo)) == 2 * (homo + 1)
    decreases nmo
  {
    if nmo > 0 {
      var shorter := Occupations(nmo - 1, homo);
      if homo < nmo - 1 {
        OccupationsHoldElectrons(nmo - 1, homo);
      } else {
        OccupationsHoldElectrons(nmo - 1, homo - 1);
        assert Occupations(nmo - 1, homo) == Occupations(nmo - 1, homo - 1);
      }
      assert Occupations(nmo, homo) == shorter + [Occupations(nmo, homo)[nmo - 1]];
      SumIntsAppend(shorter, Occupations(nmo, homo)[nmo - 1]);
    }
  }

  /** For an even, non-negative electron count the orbital `calculate_mo`
      calls the homo is the one the reader's occupations fill up to, and the
      occupations account for every electron. */
  lemma OccupationsMatchHomo(e: nat, nmo: nat)
    requires e % 2 == 0 && e / 2 <= nmo
    ensures ClientUtils.OrbitalIndex(ClientUtils.MoName("homo"), [Some(e)]) == Ok(e / 2 - 1)
    ensures SumInts(Occupations(nmo, e / 2 - 1)) == e
  {
    assert Lower("homo") == "homo";
    OccupationsHoldElectrons(nmo, e / 2 - 1);
  }

  /** The orbital part of the reader: coefficients and energies of the last
      set, the electron count, and occupations when there is exactly one
      homo. An empty list of sets fails on `[-1]`. */
  function AddOrbitals(doc: Doc, d: CclibData): (r: Result<Doc, ReadError>)
    ensures d.mocoeffs == Some([]) || d.moenergies == Some([]) ==> r.Err?
    ensures r.Ok? ==> OnlyChanges(doc, r.value, "orbitals")
  {
    var withCoefficients :- SetCoefficients(doc, d.mocoeffs);
    var withEnergies :- SetEnergies(withCoefficients, d.moenergies);
    var withCount :- SetOptional(withEnergies, "orbitals", "electronCount", ElectronCount(d));
    var done :- SetOptional(withCount, "orbitals", "occupations", OccupationsJson(d));
    OnlyChangesTrans(doc, withCoefficients, withEnergies, "orbitals");
    OnlyChangesTrans(doc, withEnergies, withCount, "orbitals");
    OnlyChangesTrans(doc, withCount, done, "orbitals");
    Ok(done)
  }

  function ElectronCount(d: CclibData): Option<Json> {
    if d.nelectrons.Some? then Some(JInt(d.nelectrons.value)) else None
  }

  function OccupationsJson(d: CclibData): Option<Json> {
    if OneHomo(d) then Some(IntsJson(Occupations(d.nmo.value, d.homos.value[0]))) else None
  }

  /** What the orbital step writes: the flattened last coefficient set, the
      last energy set, the electron count, and the occupations exactly when
      there is one homo. */
  lemma AddOrbitalsContents(doc: Doc, d: CclibData)
    requires AddOrbitals(doc, d).Ok?
    ensures d.mocoeffs.Some? ==>
              && MoCoefficients(d.mocoeffs.value).Ok?
              && Has(Section(AddOrbitals(doc, d).value, "orbitals"), "moCoefficients",
                     RealsJson(MoCoefficients(d.mocoeffs.value).value))
    ensures d.moenergies.Some? ==>
              && |d.moenergies.value| > 0
              && Has(Section(AddOrbitals(doc, d).value, "orbitals"), "energies",
                     RealsJson(d.moenergies.value[|d.moenergies.value| - 1]))
    ensures d.nelectrons.Some? ==>
              Has(Section(AddOrbitals(doc, d).value, "orbitals"), "electronCount", JInt(d.nelectrons.value))
    ensures OneHomo(d) ==>
              Has(Section(AddOrbitals(doc, d).value, "orbitals"), "occupations",
                  IntsJson(Occupations(d.nmo.value, d.homos.value[0])))
    ensures !OneHomo(d) ==>
              ("occupations" in Section(AddOrbitals(doc, d).value, "orbitals")
               <==> "occupations" in Section(doc, "orbitals"))
  {
    var c1 := SetCoefficients(doc, d.mocoeffs).value;
    var c2 := SetEnergies(c1, d.moenergies).value;
    var c3 := SetOptional(c2, "orbitals", "electronCount", ElectronCount(d)).value;
    var c4 := SetOptional(c3, "orbitals", "occupations", OccupationsJson(d)).value;
    assert c4 == AddOrbitals(doc, d).value;
    var o0, o1, o2, o3, o4 := Section(doc, "orbitals"), Section(c1, "orbitals"), Section(c2, "orbitals"),
                              Section(c3, "orbitals"), Section(c4, "orbitals");
    var e := if d.moenergies.Some? then Some(RealsJson(d.moenergies.value[|d.moenergies.value| - 1])) else None;
    assert o2 == if e.Some? then o1["energies" := e.value] else o1;
    if d.mocoeffs.Some? {
      var x := RealsJson(MoCoefficients(d.mocoeffs.value).value);
      assert Has(o1, "moCoefficients", x);
      KeptBySet(o1, o2, "moCoefficients", x, "energies", e);
      KeptBySet(o2, o3, "moCoefficients", x, "electronCount", ElectronCount(d));
      KeptBySet(o3, o4, "moCoefficients", x, "occupations", OccupationsJson(d));
    }
    if d.moenergies.Some? {
      var y := e.value;
      assert Has(o2, "energies", y);
      KeptBySet(o2, o3, "energies", y, "electronCount", ElectronCount(d));
      KeptBySet(o3, o4, "energies", y, "occupations", OccupationsJson(d));
    }
    if d.nelectrons.Some? {
      assert Has(o3, "electronCount", JInt(d.nelectrons.value));
      KeptBySet(o3, o4, "electronCount", JInt(d.nelectrons.value), "occupations", OccupationsJson(d));
    }
    if !OneHomo(d) {
      assert o4 == o3;
      assert "occupations" in o1 <==> "occupations" in o0;
    }
  }

  /** An entry survives a step that sets at most one other key. */
  lemma KeptBySet(before: map<string, Json>, after: map<string, Json>, k: string, v: Json, other: string,
                  written: Option<Json>)
    requires Has(before, k, v) && k != other
    requires after == if written.Some? then before[other := written.value] else before
    ensures Has(after, k, v)
  {
  }

  lemma OnlyChangesTrans(a: Doc, b: Doc, c: Doc, section: string)
    requires OnlyChanges(a, b, section) && OnlyChanges(b, c, section)
    ensures OnlyChanges(a, c, section)
  {
  }

  /** `homos` and `nmo` are both known and there is one homo. */
  predicate OneHomo(d: CclibData) {
    d.homos.Some? && d.nmo.Some? && |d.homos.value| == 1
  }

  /** An entry set only when there is a value. */
  function SetOptional(doc: Doc, section: string, key: string, value: Option<Json>): (r: Result<Doc, ReadError>)
    ensures value.None? ==> r == Ok(doc)
    ensures value.Some? ==> r == SetIn(doc, section, key, value.value)
    ensures r.Ok? ==> OnlyChanges(doc, r.value, section)
    ensures r.Ok? ==> Section(r.value, section) == if value.Some? then Section(doc, section)[key := value.value]
                                                   else Section(doc, section)
  {
    if value.Some? then SetIn(doc, section, key, value.value) else Ok(doc)
  }

  function SetCoefficients(doc: Doc, mocoeffs: Option<seq<seq<seq<real>>>>): (r: Result<Doc, ReadError>)
    ensures mocoeffs == Some([]) ==> r.Err?
    ensures r.Ok? ==> OnlyChanges(doc, r.value, "orbitals")
    ensures r.Ok? ==>
              Section(r.value, "orbitals") ==
              (if mocoeffs.Some?
               then Section(doc, "orbitals")["moCoefficients" := RealsJson(MoCoefficients(mocoeffs.value).value)]
               else Section(doc, "orbitals"))
  {
    match mocoeffs
    case None => Ok(doc)
    case Some(c) =>
      var flat :- MoCoefficients(c);
      SetIn(doc, "orbitals", "moCoefficients", RealsJson(flat))
  }

  function SetEnergies(doc: Doc, moenergies: Option<seq<seq<real>>>): (r: Result<Doc, ReadError>)
    ensures moenergies == Some([]) ==> r.Err?
    ensures r.Ok? ==> OnlyChanges(doc, r.value, "orbitals")
    ensures r.Ok? && moenergies.Some? ==> |moenergies.value| > 0
    ensures r.Ok? ==>
              Section(r.value, "orbitals") ==
              (if moenergies.Some?
               then Section(doc, "orbitals")["energies" := RealsJson(moenergies.value[|moenergies.value| - 1])]
               else Section(doc, "orbitals"))
  {
    match moenergies
    case None => Ok(doc)
    case Some(m) =>
      if |m| == 0 then Err(NoOrbitalSets) else SetIn(doc, "orbitals", "energies", RealsJson(m[|m| - 1]))
  }

  // ---------------------------------------------------------------------------
  // Vibrations

  /** One placeholder intensity per frequency. */
  function Ones(n: nat): (r: seq<int>)
    ensures |r| == n && forall i :: 0 <= i < n ==> r[i] == 1
  {
    seq(n, i => 1)
  }

  /** The modes numbered from one. */
  function ModeNumbers(n: nat): (r: seq<int>)
    ensures |r| == n && forall i :: 0 <= i < n ==> r[i] == i + 1
  {
    seq(n, i => i + 1)
  }

  /** `len()` of a JSON value; numbers, booleans and `None` have none. */
  function Length(j: Json): Option<nat> {
    match j
    case JArr(items) => Some(|items|)
    case JStr(s) => Some(|s|)
    case JObj(fields) => Some(|fields|)
    case _ => None
  }

  /** `name in cjson['vibrations']` for a section that is not a dictionary:
      a list holding the string or a string containing it; other values
      cannot be searched and raise. */
  function NonDictHas(v: Json, name: string): Option<bool> {
    match v
    case JArr(items) => Some(JStr(name) in items)
    case JStr(s) => Some(Contains(s, name))
    case _ => None
  }

  /** Whether the placeholder code raises on a section that is not a
      dictionary: the membership test cannot be made, or `frequencies` is
      found and a missing `intensities` or `modes` makes it read
      `cjson['vibrations']['frequencies']` with a string index. */
  predicate NonDictFails(v: Json) {
    match NonDictHas(v, "frequencies")
    case None => true
    case Some(found) => found && (NonDictHas(v, "intensities") == Some(false) || NonDictHas(v, "modes") == Some(false))
  }

  /** The placeholders: when the vibrations list frequencies, intensities of
      one and modes numbered from one fill in whichever is absent; the
      length of the frequencies is only taken when one of them is absent. */
  function AddPlaceholders(doc: Doc): (r: Result<Doc, ReadError>)
    ensures r.Ok? ==> OnlyChanges(doc, r.value, "vibrations")
    ensures "vibrations" !in doc ==> r == Ok(doc)
    ensures "vibrations" in doc && !doc["vibrations"].JObj? ==>
              r == if NonDictFails(doc["vibrations"]) then Err(NotADict("vibrations")) else Ok(doc)
    ensures r == Err(NoLength("frequencies")) <==>
              "vibrations" in doc && doc["vibrations"].JObj? && "frequencies" in doc["vibrations"].fields
              && ("intensities" !in doc["vibrations"].fields || "modes" !in doc["vibrations"].fields)
              && Length(doc["vibrations"].fields["frequencies"]).None?
    ensures r.Ok? && "vibrations" in doc && doc["vibrations"].JObj? && "frequencies" in doc["vibrations"].fields ==>
              var v := doc["vibrations"].fields;
              var w := Section(r.value, "vibrations");
              && w.Keys == v.Keys + {"intensities", "modes"}
              && w["frequencies"] == v["frequencies"]
              && ("intensities" in v ==> w["intensities"] == v["intensities"])
              && ("modes" in v ==> w["modes"] == v["modes"])
              && ("intensities" !in v ==> w["intensities"] == IntsJson(Ones(Length(v["frequencies"]).value)))
              && ("modes" !in v ==> w["modes"] == IntsJson(ModeNumbers(Length(v["frequencies"]).value)))
    ensures r.Ok? && "vibrations" in doc && doc["vibrations"].JObj? && "frequencies" !in doc["vibrations"].fields ==>
              r.value == doc
  {
    if "vibrations" !in doc then Ok(doc)
    else
      var v := doc["vibrations"];
      if !v.JObj? then
        if NonDictFails(v) then Err(NotADict("vibrations")) else Ok(doc)
      else if "frequencies" !in v.fields then Ok(doc)
      else if "intensities" in v.fields && "modes" in v.fields then
        assert doc["vibrations" := JObj(v.fields)] == doc;
        Ok(doc["vibrations" := JObj(v.fields)])
      else
        match Length(v.fields["frequencies"])
        case None => Err(NoLength("frequencies"))
        case Some(n) =>
          var withIntensities := if "intensities" in v.fields then v.fields else v.fields["intensities" := IntsJson(Ones(n))];
          var withModes := if "modes" in withIntensities then withIntensities
                           else withIntensities["modes" := IntsJson(ModeNumbers(n))];
          Ok(doc["vibrations" := JObj(withModes)])
  }

  /** The vibrational part of the reader: frequencies, flattened
      displacements, then the placeholders. */
  function AddVibrations(doc: Doc, d: CclibData): (r: Result<Doc, ReadError>)
    ensures r.Ok? ==> OnlyChanges(doc, r.value, "vibrations")
  {
    var withFrequencies :- SetOptional(doc, "vibrations", "frequencies", FrequenciesJson(d));
    var withDisplacements :- SetOptional(withFrequencies, "vibrations", "eigenVectors", DisplacementsOf(d));
    var done :- AddPlaceholders(withDisplacements);
    OnlyChangesTrans(doc, withFrequencies, withDisplacements, "vibrations");
    OnlyChangesTrans(doc, withDisplacements, done, "vibrations");
    Ok(done)
  }

  function FrequenciesJson(d: CclibData): Option<Json> {
    if d.vibfreqs.Some? then Some(RealsJson(d.vibfreqs.value)) else None
  }

  function DisplacementsOf(d: CclibData): Option<Json> {
    if d.vibdisps.Some? then Some(DisplacementsJson(d.vibdisps.value)) else None
  }

  /** What the vibration step writes: the frequencies, the flattened
      displacements, and placeholder intensities and modes, one per
      frequency, where the document has none of its own. */
  lemma AddVibrationsContents(doc: Doc, d: CclibData)
    requires AddVibrations(doc, d).Ok?
    ensures d.vibfreqs.Some? ==>
              var w := Section(AddVibrations(doc, d).value, "vibrations");
              var n := |d.vibfreqs.value|;
              && Has(w, "frequencies", RealsJson(d.vibfreqs.value))
              && "intensities" in w && "modes" in w
              && ("intensities" !in Section(doc, "vibrations") ==> w["intensities"] == IntsJson(Ones(n)))
              && ("modes" !in Section(doc, "vibrations") ==> w["modes"] == IntsJson(ModeNumbers(n)))
    ensures d.vibdisps.Some? ==>
              Has(Section(AddVibrations(doc, d).value, "vibrations"), "eigenVectors", DisplacementsJson(d.vibdisps.value))
  {
    var c1 := SetOptional(doc, "vibrations", "frequencies", FrequenciesJson(d)).value;
    var c2 := SetOptional(c1, "vibrations", "eigenVectors", DisplacementsOf(d)).value;
    var c3 := AddPlaceholders(c2).value;
    assert c3 == AddVibrations(doc, d).value;
    var v0, v1, v2, v3 := Section(doc, "vibrations"), Section(c1, "vibrations"), Section(c2, "vibrations"),
                          Section(c3, "vibrations");
    if d.vibfreqs.Some? {
      var f := RealsJson(d.vibfreqs.value);
      assert Has(v1, "frequencies", f);
      KeptBySet(v1, v2, "frequencies", f, "eigenVectors", DisplacementsOf(d));
      assert "intensities" in v2 <==> "intensities" in v0;
      assert "modes" in v2 <==> "modes" in v0;
      assert Length(f) == Some(|d.vibfreqs.value|);
    }
    if d.vibdisps.Some? {
      assert Has(v2, "eigenVectors", DisplacementsJson(d.vibdisps.value));
    }
  }

  function DisplacementsJson(vibdisps: seq<seq<seq<real>>>): Json {
    var flat := VibrationalDisplacements(vibdisps);
    JArr(seq(|flat|, m requires 0 <= m < |flat| => RealsJson(flat[m])))
  }

  // ---------------------------------------------------------------------------
  // Metadata and energy

  /** The basis and functional lower-cased, and the first method, lower-cased,
      as the theory when there is one. */
  function AddMetadata(doc: Doc, m: Option<Metadata>): (r: Result<Doc, ReadError>)
    ensures r.Ok? ==> OnlyChanges(doc, r.value, "metadata")
    ensures r.Ok? && m.Some? && m.value.basisSet.Some? ==>
              Has(Section(r.value, "metadata"), "basisSet", JStr(Lower(m.value.basisSet.value)))
    ensures r.Ok? && m.Some? && m.value.functional.Some? ==>
              Has(Section(r.value, "metadata"), "functional", JStr(Lower(m.value.functional.value)))
    ensures r.Ok? && m.Some? && m.value.methods.Some? && |m.value.methods.value| > 0 ==>
              Has(Section(r.value, "metadata"), "theory", JStr(Lower(m.value.methods.value[0])))
    ensures r.Ok? && (m.None? || m.value.methods.None? || |m.value.methods.value| == 0) ==>
              ("theory" in Section(r.value, "metadata") <==> "theory" in Section(doc, "metadata"))
  {
    match m
    case None => Ok(doc)
    case Some(md) =>
      var withBasis :- SetOptional(doc, "metadata", "basisSet",
                                   if md.basisSet.Some? then Some(JStr(Lower(md.basisSet.value))) else None);
      var withFunctional :- SetOptional(withBasis, "metadata", "functional",
                                        if md.functional.Some? then Some(JStr(Lower(md.functional.value))) else None);
      var done :- SetOptional(withFunctional, "metadata", "theory",
                              if md.methods.Some? && |md.methods.value| > 0 then Some(JStr(Lower(md.methods.value[0])))
                              else None);
      OnlyChangesTrans(doc, withBasis, withFunctional, "metadata");
      OnlyChangesTrans(doc, withFunctional, done, "metadata");
      Ok(done)
  }

  /** The last SCF energy, scaled by `toJoulePerMole`, as the total energy. */
  function AddEnergy(doc: Doc, scfenergies: Option<seq<real>>, toJoulePerMole: real): (r: Result<Doc, ReadError>)
    ensures r.Ok? ==> OnlyChanges(doc, r.value, "properties")
    ensures r.Ok? && scfenergies.Some? && |scfenergies.value| > 0 ==>
              Has(Section(r.value, "properties"), "totalEnergy", JReal(scfenergies.value[|scfenergies.value| - 1] * toJoulePerMole))
  {
    var energy := if scfenergies.Some? && |scfenergies.value| > 0
                  then Some(JReal(scfenergies.value[|scfenergies.value| - 1] * toJoulePerMole)) else None;
    SetOptional(doc, "properties", "totalEnergy", energy)
  }

  // ---------------------------------------------------------------------------
  // The reader

  /** The sections the reader writes. */
  const ReadSections: set<string> := {"basisSet", "orbitals", "vibrations", "metadata", "properties"}

  /** `after` differs from `doc` at most in the sections of `sections`. */
  ghost predicate ChangesOnlyIn(doc: Doc, after: Doc, sections: set<string>) {
    && after.Keys <= doc.Keys + sections
    && doc.Keys <= after.Keys
    && forall s :: s in doc && s !in sections ==> after[s] == doc[s]
  }

  /** A step changing one of the sections keeps the changes among them. */
  lemma ChangesOnlyInStep(a: Doc, b: Doc, c: Doc, section: string, sections: set<string>)
    requires ChangesOnlyIn(a, b, sections) && OnlyChanges(b, c, section) && section in sections
    ensures ChangesOnlyIn(a, c, sections)
  {
  }

  /** `Psi4Reader.read` after the document is written: basis, orbitals,
      vibrations, metadata and energy, in that order. Every other section is
      left as it was, a basis with an unknown shell label fails the read, and
      so does an empty list of coefficient or energy sets once the basis is
      converted. */
  function Read(doc: Doc, d: CclibData, toJoulePerMole: real): (r: Result<Doc, ReadError>)
    ensures r.Ok? ==> ChangesOnlyIn(doc, r.value, ReadSections)
    ensures d.gbasis.Some? && HasUnknownShell(d.gbasis.value) ==> r.Err?
  {
    var withBasis :- AddBasis(doc, d.gbasis);
    var withOrbitals :- AddOrbitals(withBasis, d);
    var withVibrations :- AddVibrations(withOrbitals, d);
    var withMetadata :- AddMetadata(withVibrations, d.metadata);
    var done :- AddEnergy(withMetadata, d.scfenergies, toJoulePerMole);
    assert ChangesOnlyIn(doc, withBasis, ReadSections);
    ChangesOnlyInStep(doc, withBasis, withOrbitals, "orbitals", ReadSections);
    ChangesOnlyInStep(doc, withOrbitals, withVibrations, "vibrations", ReadSections);
    ChangesOnlyInStep(doc, withVibrations, withMetadata, "metadata", ReadSections);
    ChangesOnlyInStep(doc, withMetadata, done, "properties", ReadSections);
    Ok(done)
  }

  /** The read document's orbitals are those of the orbital step: later steps
      touch other sections only. */
  lemma ReadKeepsOrbitals(doc: Doc, d: CclibData, toJoulePerMole: real)
    requires Read(doc, d, toJoulePerMole).Ok?
    ensures AddBasis(doc, d.gbasis).Ok? && AddOrbitals(AddBasis(doc, d.gbasis).value, d).Ok?
    ensures Section(Read(doc, d, toJoulePerMole).value, "orbitals")
         == Section(AddOrbitals(AddBasis(doc, d.gbasis).value, d).value, "orbitals")
  {
    var withBasis := AddBasis(doc, d.gbasis).value;
    var withOrbitals := AddOrbitals(withBasis, d).value;
    var withVibrations := AddVibrations(withOrbitals, d).value;
    var withMetadata := AddMetadata(withVibrations, d.metadata).value;
    var done := AddEnergy(withMetadata, d.scfenergies, toJoulePerMole).value;
    assert done == Read(doc, d, toJoulePerMole).value;
    KeepsSection(withOrbitals, withVibrations, "vibrations", "orbitals");
    KeepsSection(withVibrations, withMetadata, "metadata", "orbitals");
    KeepsSection(withMetadata, done, "properties", "orbitals");
  }

  /** A step that changes only one section leaves every other one as it was. */
  lemma KeepsSection(doc: Doc, after: Doc, changed: string, kept: string)
    requires OnlyChanges(doc, after, changed) && changed != kept
    ensures Section(after, kept) == Section(doc, kept)
  {
  }

  /** Occupations appear exactly when there is one homo: two electrons in each
      orbital up to it, none after, one entry per orbital. */
  lemma ReadOccupations(doc: Doc, d: CclibData, toJoulePerMole: real)
    requires Read(doc, d, toJoulePerMole).Ok? && OneHomo(d)
    ensures var orbitals := Section(Read(doc, d, toJoulePerMole).value, "orbitals");
            "occupations" in orbitals && orbitals["occupations"] == IntsJson(Occupations(d.nmo.value, d.homos.value[0]))
  {
    ReadKeepsOrbitals(doc, d, toJoulePerMole);
    AddOrbitalsContents(AddBasis(doc, d.gbasis).value, d);
  }

  /** Without exactly one homo the read adds no occupations of its own. */
  lemma ReadNoOccupations(doc: Doc, d: CclibData, toJoulePerMole: real)
    requires Read(doc, d, toJoulePerMole).Ok? && !OneHomo(d)
    requires "occupations" !in Section(doc, "orbitals")
    ensures "occupations" !in Section(Read(doc, d, toJoulePerMole).value, "orbitals")
  {
    ReadKeepsOrbitals(doc, d, toJoulePerMole);
    AddOrbitalsContents(AddBasis(doc, d.gbasis).value, d);
    KeepsSection(doc, AddBasis(doc, d.gbasis).value, "basisSet", "orbitals");
  }

  /** The orbital energies are those of the last set. */
  lemma ReadEnergies(doc: Doc, d: CclibData, toJoulePerMole: real)
    requires Read(doc, d, toJoulePerMole).Ok? && d.moenergies.Some?
    ensures |d.moenergies.value| > 0
    ensures "energies" in Section(Read(doc, d, toJoulePerMole).value, "orbitals")
    ensures Section(Read(doc, d, toJoulePerMole).value, "orbitals")["energies"]
         == RealsJson(d.moenergies.value[|d.moenergies.value| - 1])
  {
    ReadKeepsOrbitals(doc, d, toJoulePerMole);
    AddOrbitalsContents(AddBasis(doc, d.gbasis).value, d);
  }

  /** With frequencies and no intensities of its own, the document gets one
      intensity per frequency, so the vibrational-mode table shows them. */
  lemma ReadPlaceholderIntensities(doc: Doc, d: CclibData, toJoulePerMole: real)
    requires Read(doc, d, toJoulePerMole).Ok? && d.vibfreqs.Some?
    requires "intensities" !in Section(doc, "vibrations")
    ensures var v := Section(Read(doc, d, toJoulePerMole).value, "vibrations");
            var n := |d.vibfreqs.value|;
            && "frequencies" in v && "intensities" in v
            && v["frequencies"] == RealsJson(d.vibfreqs.value) && v["intensities"] == IntsJson(Ones(n))
            && Visualization.Column(v, "frequencies").Ok? && Visualization.Column(v, "intensities").Ok?
            && |Visualization.Column(v, "intensities").value| == |Visualization.Column(v, "frequencies").value| == n
  {
    var withOrbitals := ReadKeepsVibrations(doc, d, toJoulePerMole);
    var v := Section(Read(doc, d, toJoulePerMole).value, "vibrations");
    assert v == Section(AddVibrations(withOrbitals, d).value, "vibrations");
    AddVibrationsContents(withOrbitals, d);
    PlaceholderColumns(v, d.vibfreqs.value);
  }

  /** The read document's vibrations are those of the vibration step, which
      starts from the document's own. */
  lemma ReadKeepsVibrations(doc: Doc, d: CclibData, toJoulePerMole: real) returns (withOrbitals: Doc)
    requires Read(doc, d, toJoulePerMole).Ok?
    ensures AddVibrations(withOrbitals, d).Ok?
    ensures Section(withOrbitals, "vibrations") == Section(doc, "vibrations")
    ensures Section(Read(doc, d, toJoulePerMole).value, "vibrations")
         == Section(AddVibrations(withOrbitals, d).value, "vibrations")
  {
    var withBasis := AddBasis(doc, d.gbasis).value;
    withOrbitals := AddOrbitals(withBasis, d).value;
    var withVibrations := AddVibrations(withOrbitals, d).value;
    var withMetadata := AddMetadata(withVibrations, d.metadata).value;
    var done := AddEnergy(withMetadata, d.scfenergies, toJoulePerMole).value;
    assert done == Read(doc, d, toJoulePerMole).value;
    KeepsSection(doc, withBasis, "basisSet", "vibrations");
    KeepsSection(withBasis, withOrbitals, "orbitals", "vibrations");
    KeepsSection(withVibrations, withMetadata, "metadata", "vibrations");
    KeepsSection(withMetadata, done, "properties", "vibrations");
  }

  lemma PlaceholderColumns(v: map<string, Json>, freqs: seq<real>)
    requires "frequencies" in v && "intensities" in v
    requires v["frequencies"] == RealsJson(freqs) && v["intensities"] == IntsJson(Ones(|freqs|))
    ensures Visualization.Column(v, "frequencies") == Ok(RealsJson(freqs).items)
    ensures Visualization.Column(v, "intensities") == Ok(IntsJson(Ones(|freqs|)).items)
    ensures |RealsJson(freqs).items| == |IntsJson(Ones(|freqs|)).items| == |freqs|
  {
  }

  /** An empty list of coefficient or energy sets fails the read. */
  lemma ReadEmptySetsFail(doc: Doc, d: CclibData, toJoulePerMole: real)
    requires AddBasis(doc, d.gbasis).Ok?
    requires d.mocoeffs == Some([]) || d.moenergies == Some([])
    ensures Read(doc, d, toJoulePerMole).Err?
  {
  }
}
