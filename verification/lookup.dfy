/** Finding and importing molecules from the client: the InChIKey shape test,
    the lookup precedence of both client APIs, the import request, and the
    taskflow ids handed to the calculation monitor. */
module Lookup {
  import opened Wrappers
  import opened Text
  import opened Lists

  // ---------------------------------------------------------------------------
  // _is_inchi_key

  const InchiKeyLength := 27
  const InchiKeyDash := 25

  /** A character of the class `[0-9A-Z-]`. */
  predicate KeyChar(c: char) {
    IsDigit(c) || IsUpper(c) || c == '-'
  }

  predicate AllKeyChars(s: string) {
    forall i :: 0 <= i < |s| ==> KeyChar(s[i])
  }

  /** `re.match('^([0-9A-Z-]+)$', s)`: one or more class characters up to the
      end, where `$` also matches just before a final newline. */
  predicate KeyPatternMatches(s: string) {
    (|s| > 0 && AllKeyChars(s))
    || (|s| > 1 && s[|s| - 1] == '\n' && AllKeyChars(s[..|s| - 1]))
  }

  /** `_is_inchi_key` as written: 27 characters, a dash at index 25, and the
      pattern match. It accepts every intended key, and whatever it accepts
      has only class characters before its last one. */
  predicate IsInchiKeyAsWritten(id: string): (b: bool)
    ensures IsInchiKey(id) ==> b
    ensures b ==> |id| == InchiKeyLength && id[InchiKeyDash] == '-' && AllKeyChars(id[..InchiKeyLength - 1])
  {
    |id| == InchiKeyLength && id[InchiKeyDash] == '-' && KeyPatternMatches(id)
  }

  /** The intended test: 27 characters of `[0-9A-Z-]` with a dash at index 25. */
  predicate IsInchiKey(id: string) {
    |id| == InchiKeyLength && id[InchiKeyDash] == '-' && AllKeyChars(id)
  }

  /** The written test accepts exactly the intended keys plus the 26-character
      prefixes of such keys followed by a newline. */
  lemma InchiKeyTestsDiffer(id: string)
    ensures IsInchiKeyAsWritten(id) <==>
              IsInchiKey(id)
              || (|id| == InchiKeyLength && id[InchiKeyDash] == '-' && id[InchiKeyLength - 1] == '\n'
                  && AllKeyChars(id[..InchiKeyLength - 1]))
  {
  }

  /** A concrete identifier the written test accepts and the intended one
      rejects: 25 letters, a dash, and a newline. */
  lemma InchiKeyNewlineAccepted()
    ensures var id := seq(25, _ => 'A') + "-\n";
            IsInchiKeyAsWritten(id) && !IsInchiKey(id)
  {
    var id := seq(25, _ => 'A') + "-\n";
    assert id[..26] == seq(25, _ => 'A') + "-";
    assert AllKeyChars(id[..26]);
    assert !KeyChar(id[26]);
  }

  /** An accepted key holds no whitespace, so it can be put into a URL path
      as it is. */
  lemma InchiKeyHasNoSpace(id: string)
    requires IsInchiKey(id)
    ensures NoSpace(id) && '\n' !in id && '/' !in id
  {
    assert forall i :: 0 <= i < |id| ==> KeyChar(id[i]);
  }

  // ---------------------------------------------------------------------------
  // The molecule store as the lookups see it

  /** `search(key, value)` are the molecules the store lists for an `inchi` or
      `smiles` query, `byInchiKey` the molecule under an InChIKey or the HTTP
      status of the failed request, `cactus` the molecules the name search
      finds. */
  datatype MoleculeDb = MoleculeDb(search: (string, string) -> seq<Json>,
                                   byInchiKey: string -> Result<Json, int>,
                                   cactus: string -> seq<Json>)

  datatype LookupError =
    | IdentifierIsNone
    | HttpError(status: int)
    | NothingToImport
    | NeitherInchiNorSmiles
    | NoMoleculesFound(key: string, value: string)
    | NoIdentifier
    | NoCactusMatch(identifier: string)
    | MoleculeNotFound
    | CalculationNotFound

  const NotFound := 404

  /** A string argument Python reads as true: given and not empty. */
  predicate Given(s: Option<string>) {
    s.Some? && |s.value| > 0
  }

  function First(xs: seq<Json>): (r: Option<Json>)
    ensures r.Some? <==> |xs| > 0
    ensures r.Some? ==> r.value == xs[0]
  {
    if |xs| > 0 then Some(xs[0]) else None
  }

  // ---------------------------------------------------------------------------
  // api.py

  /** `_find_molecule`: an InChI first, then a SMILES, then the identifier as
      an InChIKey (by the test as written), whose 404 falls back to the name
      search, then the identifier as a name. A missing identifier with
      neither InChI nor SMILES fails on its length. */
  function FindMolecule(identifier: Option<string>, inchi: Option<string>, smiles: Option<string>,
                        db: MoleculeDb)
    : (r: Result<Option<Json>, LookupError>)
    ensures Given(inchi) ==> r == Ok(First(db.search("inchi", inchi.value)))
    ensures !Given(inchi) && Given(smiles) ==> r == Ok(First(db.search("smiles", smiles.value)))
    ensures !Given(inchi) && !Given(smiles) && identifier.None? ==> r == Err(IdentifierIsNone)
    ensures !Given(inchi) && !Given(smiles) && identifier.Some? ==>
              r == ByIdentifier(identifier.value, IsInchiKeyAsWritten(identifier.value), db)
  {
    if Given(inchi) then Ok(First(db.search("inchi", inchi.value)))
    else if Given(smiles) then Ok(First(db.search("smiles", smiles.value)))
    else if identifier.None? then Err(IdentifierIsNone)
    else ByIdentifier(identifier.value, IsInchiKeyAsWritten(identifier.value), db)
  }

  /** `_find_molecule` with the intended InChIKey test in place of the one
      as written. */
  function FindMoleculeCorrected(identifier: Option<string>, inchi: Option<string>, smiles: Option<string>,
                                 db: MoleculeDb)
    : (r: Result<Option<Json>, LookupError>)
    ensures !Given(inchi) && !Given(smiles) && identifier.Some? ==>
              r == ByIdentifier(identifier.value, IsInchiKey(identifier.value), db)
    ensures Given(inchi) || Given(smiles) || identifier.None? ==> r == FindMolecule(identifier, inchi, smiles, db)
  {
    if !Given(inchi) && !Given(smiles) && identifier.Some? then
      ByIdentifier(identifier.value, IsInchiKey(identifier.value), db)
    else FindMolecule(identifier, inchi, smiles, db)
  }

  /** The identifier part of `_find_molecule`: a key is fetched from the
      store, its 404 falls back to the name search; any other non-empty
      identifier goes to the name search. */
  function ByIdentifier(id: string, isKey: bool, db: MoleculeDb): (r: Result<Option<Json>, LookupError>)
    ensures r.Err? ==> isKey && r.error.HttpError? && db.byInchiKey(id) == Err(r.error.status)
                       && r.error.status != NotFound
    ensures !isKey ==> r == Ok(if |id| > 0 then First(db.cactus(id)) else None)
    ensures isKey && db.byInchiKey(id).Ok? ==> r == Ok(Some(db.byInchiKey(id).value))
    ensures isKey && db.byInchiKey(id) == Err(NotFound) ==> r == Ok(First(db.cactus(id)))
  {
    if isKey then
      match db.byInchiKey(id)
      case Ok(m) => Ok(Some(m))
      case Err(status) =>
        if status == NotFound then Ok(First(db.cactus(id))) else Err(HttpError(status))
    else if |id| > 0 then Ok(First(db.cactus(id)))
    else Ok(None)
  }

  /** The program and its correction look a molecule up the same way except
      for an identifier that only the test as written takes for a key: that
      one is fetched from the store by the program, while the correction
      sends it straight to the name search. */
  lemma FindMoleculeCorrectionDiffers(identifier: Option<string>, inchi: Option<string>,
                                      smiles: Option<string>, db: MoleculeDb)
    ensures !(identifier.Some? && IsInchiKeyAsWritten(identifier.value) && !IsInchiKey(identifier.value)) ==>
              FindMoleculeCorrected(identifier, inchi, smiles, db) == FindMolecule(identifier, inchi, smiles, db)
    ensures !Given(inchi) && !Given(smiles) && identifier.Some? && IsInchiKeyAsWritten(identifier.value)
            && !IsInchiKey(identifier.value) ==>
              FindMolecule(identifier, inchi, smiles, db) == ByIdentifier(identifier.value, true, db)
              && FindMoleculeCorrected(identifier, inchi, smiles, db) == Ok(First(db.cactus(identifier.value)))
  {
    if identifier.Some? {
      InchiKeyTestsDiffer(identifier.value);
    }
  }

  /** `find_molecule`: a lookup that finds nothing fails. */
  function FindMoleculeOrFail(identifier: Option<string>, inchi: Option<string>, smiles: Option<string>,
                              db: MoleculeDb)
    : (r: Result<Json, LookupError>)
    ensures r.Ok? <==> FindMolecule(identifier, inchi, smiles, db).Ok?
                       && FindMolecule(identifier, inchi, smiles, db).value.Some?
    ensures r.Ok? ==> FindMolecule(identifier, inchi, smiles, db) == Ok(Some(r.value))
    ensures FindMolecule(identifier, inchi, smiles, db) == Ok(None) ==> r == Err(MoleculeNotFound)
    ensures FindMolecule(identifier, inchi, smiles, db).Err? ==> r == Err(FindMolecule(identifier, inchi, smiles, db).error)
  {
    var found :- FindMolecule(identifier, inchi, smiles, db);
    if found.None? then Err(MoleculeNotFound) else Ok(found.value)
  }

  /** What `find_structure` of api.py returns. */
  datatype Structure = MoleculeStructure(molecule: Json) | CalculationStructure(calculation: Json)

  /** `find_structure`: the molecule, or, when both an image name and input
      parameters are given, its matching calculation, which must exist.
      `fetchCalc` is the calculation lookup for the molecule found. */
  function ApiFindStructure(identifier: Option<string>, inchi: Option<string>, smiles: Option<string>,
                            isCalcQuery: bool, db: MoleculeDb, fetchCalc: Json -> Option<Json>)
    : (r: Result<Structure, LookupError>)
    ensures FindMoleculeOrFail(identifier, inchi, smiles, db).Err? ==>
              r == Err(FindMoleculeOrFail(identifier, inchi, smiles, db).error)
    ensures r.Ok? ==> (r.value.CalculationStructure? <==> isCalcQuery)
    ensures r.Ok? && !isCalcQuery ==>
              r.value.molecule == FindMoleculeOrFail(identifier, inchi, smiles, db).value
    ensures r == Err(CalculationNotFound) <==>
              FindMoleculeOrFail(identifier, inchi, smiles, db).Ok? && isCalcQuery
              && fetchCalc(FindMoleculeOrFail(identifier, inchi, smiles, db).value).None?
  {
    var molecule :- FindMoleculeOrFail(identifier, inchi, smiles, db);
    if !isCalcQuery then Ok(MoleculeStructure(molecule))
    else match fetchCalc(molecule)
      case None => Err(CalculationNotFound)
      case Some(c) => Ok(CalculationStructure(c))
  }

  // ---------------------------------------------------------------------------
  // import_structure

  const InchiPrefix := "InChI="

  /** A SMILES argument that starts with `InChI=` is an InChI. */
  function Reinterpret(smiles: Option<string>, inchi: Option<string>): (r: (Option<string>, Option<string>))
    ensures Given(smiles) && InchiPrefix <= smiles.value ==> r == (None, smiles)
    ensures !(Given(smiles) && InchiPrefix <= smiles.value) ==> r == (smiles, inchi)
  {
    if Given(smiles) && InchiPrefix <= smiles.value then (None, smiles) else (smiles, inchi)
  }

  /** The identifying part of the import request: exactly one of the SMILES,
      the InChI and the cjson, in that priority, after the reinterpretation;
      none of them fails. */
  function ImportParams(smiles: Option<string>, inchi: Option<string>, cjson: Option<Json>)
    : (r: Result<map<string, Json>, LookupError>)
    ensures r.Err? <==> !Given(Reinterpret(smiles, inchi).0) && !Given(Reinterpret(smiles, inchi).1)
                        && !(cjson.Some? && Truthy(cjson.value))
    ensures r.Err? ==> r.error == NothingToImport
    ensures r.Ok? ==> |r.value.Keys| == 1
    ensures r.Ok? && Given(smiles) && !(InchiPrefix <= smiles.value) ==> r.value == map["smiles" := JStr(smiles.value)]
    ensures r.Ok? && Given(smiles) && InchiPrefix <= smiles.value ==> r.value == map["inchi" := JStr(smiles.value)]
    ensures r.Ok? && !Given(smiles) && Given(inchi) ==> r.value == map["inchi" := JStr(inchi.value)]
    ensures r.Ok? && !Given(smiles) && !Given(inchi) ==> r.value == map["cjson" := cjson.value]
  {
    var (s, i) := Reinterpret(smiles, inchi);
    if Given(s) then Ok(map["smiles" := JStr(s.value)])
    else if Given(i) then Ok(map["inchi" := JStr(i.value)])
    else if cjson.Some? && Truthy(cjson.value) then Ok(map["cjson" := cjson.value])
    else Err(NothingToImport)
  }

  /** The api.py request also always carries `generate3D`. */
  function ApiImportParams(smiles: Option<string>, inchi: Option<string>, cjson: Option<Json>, gen3d: bool)
    : (r: Result<map<string, Json>, LookupError>)
    ensures r.Err? <==> ImportParams(smiles, inchi, cjson).Err?
    ensures r.Ok? ==> "generate3D" in r.value && r.value["generate3D"] == JBool(gen3d)
    ensures r.Ok? ==> r.value.Keys == ImportParams(smiles, inchi, cjson).value.Keys + {"generate3D"}
    ensures r.Ok? ==> forall k :: k in ImportParams(smiles, inchi, cjson).value ==>
                                   r.value[k] == ImportParams(smiles, inchi, cjson).value[k]
  {
    var params :- ImportParams(smiles, inchi, cjson);
    Ok(params["generate3D" := JBool(gen3d)])
  }

  /** An InChI passed as SMILES is imported exactly as if passed as InChI. */
  lemma InchiAsSmilesIsInchi(s: string, inchi: Option<string>, cjson: Option<Json>)
    requires InchiPrefix <= s
    ensures ImportParams(Some(s), inchi, cjson) == ImportParams(None, Some(s), cjson)
  {
  }

  // ---------------------------------------------------------------------------
  // public_api.py

  /** `find_structure_by_inchi_or_smiles`: the InChI wins over the SMILES; no
      argument or no result fails; otherwise the first molecule. */
  function FindByInchiOrSmiles(inchi: Option<string>, smiles: Option<string>, db: MoleculeDb)
    : (r: Result<Json, LookupError>)
    ensures !Given(inchi) && !Given(smiles) <==> r == Err(NeitherInchiNorSmiles)
    ensures Given(inchi) ==> r == if |db.search("inchi", inchi.value)| > 0
                                  then Ok(db.search("inchi", inchi.value)[0])
                                  else Err(NoMoleculesFound("inchi", inchi.value))
    ensures !Given(inchi) && Given(smiles) ==>
              r == if |db.search("smiles", smiles.value)| > 0
                   then Ok(db.search("smiles", smiles.value)[0])
                   else Err(NoMoleculesFound("smiles", smiles.value))
  {
    if !Given(inchi) && !Given(smiles) then Err(NeitherInchiNorSmiles)
    else
      var (key, value) := if Given(inchi) then ("inchi", inchi.value) else ("smiles", smiles.value);
      var molecules := db.search(key, value);
      if |molecules| == 0 then Err(NoMoleculesFound(key, value)) else Ok(molecules[0])
  }

  /** `_get_molecule_or_calculation_result`: for a calculation query, the
      calculation or nothing; otherwise the molecule. */
  function MoleculeOrCalculation(molecule: Json, isCalcQuery: bool, fetchCalc: Json -> Option<Json>)
    : (r: Option<Structure>)
    ensures !isCalcQuery ==> r == Some(MoleculeStructure(molecule))
    ensures isCalcQuery ==> (r.None? <==> fetchCalc(molecule).None?)
    ensures isCalcQuery && r.Some? ==> r.value == CalculationStructure(fetchCalc(molecule).value)
  {
    if !isCalcQuery then Some(MoleculeStructure(molecule))
    else match fetchCalc(molecule)
      case None => None
      case Some(c) => Some(CalculationStructure(c))
  }

  /** `find_structure` of public_api.py: an InChI or SMILES lookup; else the
      identifier is required; an InChIKey (by the test as written) is looked
      up and only its 404 falls through; a calculation query that gets this
      far finds nothing; else the name search, whose miss fails. */
  function PublicFindStructure(identifier: Option<string>, inchi: Option<string>, smiles: Option<string>,
                               isCalcQuery: bool, db: MoleculeDb, fetchCalc: Json -> Option<Json>)
    : (r: Result<Option<Structure>, LookupError>)
    ensures !Given(inchi) && !Given(smiles) && !Given(identifier) ==> r == Err(NoIdentifier)
    ensures Given(inchi) || Given(smiles) ==>
              r == (var m :- FindByInchiOrSmiles(inchi, smiles, db); Ok(MoleculeOrCalculation(m, isCalcQuery, fetchCalc)))
    ensures !Given(inchi) && !Given(smiles) && Given(identifier) ==>
              r == PublicByIdentifier(identifier.value, IsInchiKeyAsWritten(identifier.value), isCalcQuery, db,
                                      fetchCalc)
  {
    if Given(inchi) || Given(smiles) then
      var m :- FindByInchiOrSmiles(inchi, smiles, db);
      Ok(MoleculeOrCalculation(m, isCalcQuery, fetchCalc))
    else if !Given(identifier) then Err(NoIdentifier)
    else PublicByIdentifier(identifier.value, IsInchiKeyAsWritten(identifier.value), isCalcQuery, db, fetchCalc)
  }

  /** The identifier part of public_api.py's `find_structure`: a calculation
      query that is not answered by the key lookup finds nothing, and any
      molecule returned came from the key lookup or the name search. */
  function PublicByIdentifier(id: string, isKey: bool, isCalcQuery: bool, db: MoleculeDb,
                              fetchCalc: Json -> Option<Json>)
    : (r: Result<Option<Structure>, LookupError>)
    ensures isCalcQuery && !(isKey && db.byInchiKey(id) != Err(NotFound)) ==> r == Ok(None)
    ensures r.Ok? && r.value.Some? && r.value.value.MoleculeStructure? ==>
              r.value.value.molecule in db.cactus(id)
              || (isKey && db.byInchiKey(id) == Ok(r.value.value.molecule))
    ensures isKey && db.byInchiKey(id).Ok? ==>
              r == Ok(MoleculeOrCalculation(db.byInchiKey(id).value, isCalcQuery, fetchCalc))
    ensures r.Err? <==> (isKey && db.byInchiKey(id).Err? && db.byInchiKey(id).error != NotFound)
                        || (!(isKey && db.byInchiKey(id).Ok?) && !isCalcQuery && |db.cactus(id)| == 0)
  {
    var byKey := if isKey then db.byInchiKey(id) else Err(NotFound);
    if byKey.Ok? then Ok(MoleculeOrCalculation(byKey.value, isCalcQuery, fetchCalc))
    else if byKey.error != NotFound then Err(HttpError(byKey.error))
    else if isCalcQuery then Ok(None)
    else
      var found := db.cactus(id);
      if |found| == 0 then Err(NoCactusMatch(id)) else Ok(Some(MoleculeStructure(found[0])))
  }

  /** public_api.py's `find_structure` with the intended InChIKey test. */
  function PublicFindStructureCorrected(identifier: Option<string>, inchi: Option<string>, smiles: Option<string>,
                                        isCalcQuery: bool, db: MoleculeDb, fetchCalc: Json -> Option<Json>)
    : (r: Result<Option<Structure>, LookupError>)
    ensures !Given(inchi) && !Given(smiles) && Given(identifier) ==>
              r == PublicByIdentifier(identifier.value, IsInchiKey(identifier.value), isCalcQuery, db, fetchCalc)
    ensures !(!Given(inchi) && !Given(smiles) && Given(identifier)) ==>
              r == PublicFindStructure(identifier, inchi, smiles, isCalcQuery, db, fetchCalc)
  {
    if !Given(inchi) && !Given(smiles) && Given(identifier) then
      PublicByIdentifier(identifier.value, IsInchiKey(identifier.value), isCalcQuery, db, fetchCalc)
    else PublicFindStructure(identifier, inchi, smiles, isCalcQuery, db, fetchCalc)
  }

  /** As for `_find_molecule`, the correction changes only the identifiers
      that the test as written alone takes for keys. */
  lemma PublicFindStructureCorrectionDiffers(identifier: Option<string>, inchi: Option<string>,
                                             smiles: Option<string>, isCalcQuery: bool, db: MoleculeDb,
                                             fetchCalc: Json -> Option<Json>)
    ensures !(identifier.Some? && IsInchiKeyAsWritten(identifier.value) && !IsInchiKey(identifier.value)) ==>
              PublicFindStructureCorrected(identifier, inchi, smiles, isCalcQuery, db, fetchCalc)
              == PublicFindStructure(identifier, inchi, smiles, isCalcQuery, db, fetchCalc)
  {
    if identifier.Some? {
      InchiKeyTestsDiffer(identifier.value);
    }
  }

  /** Both APIs resolve an InChI to the same molecule, and a missing one is an
      error only in public_api.py. */
  lemma InchiLookupsAgree(inchi: string, db: MoleculeDb, fetchCalc: Json -> Option<Json>)
    requires |inchi| > 0
    ensures var api := FindMolecule(None, Some(inchi), None, db);
            var pub := PublicFindStructure(None, Some(inchi), None, false, db, fetchCalc);
            (api.Ok? && api.value.Some? <==> pub.Ok?)
            && (pub.Ok? ==> pub.value == Some(MoleculeStructure(api.value.value)))
  {
  }

  // ---------------------------------------------------------------------------
  // monitor and queue

  /** The properties of a result, when it has them as a dictionary. */
  function TaskflowIdOf(props: Option<map<string, Json>>): Option<Json> {
    if props.Some? && "taskFlowId" in props.value && props.value["taskFlowId"] != JNull
    then Some(props.value["taskFlowId"]) else None
  }

  /** `monitor`: the taskflow ids of the results that carry one, in result
      order. */
  function MonitorIds(results: seq<Option<map<string, Json>>>): (ids: seq<Json>)
    ensures PicksInOrder(results, TaskflowIdOf, Positions(results, TaskflowIdOf), ids)
    ensures forall id :: id in ids <==> exists i :: 0 <= i < |results| && TaskflowIdOf(results[i]) == Some(id)
    ensures forall id :: id in ids ==> id != JNull
  {
    FilterMapPicks(results, TaskflowIdOf);
    FilterMapMembership(results, TaskflowIdOf);
    FilterMap(results, TaskflowIdOf)
  }

  /** Results that all carry an id contribute one id each. */
  lemma MonitorKeepsEveryId(results: seq<Option<map<string, Json>>>)
    requires forall i :: 0 <= i < |results| ==> TaskflowIdOf(results[i]).Some?
    ensures |MonitorIds(results)| == |results|
    ensures forall i :: 0 <= i < |results| ==> MonitorIds(results)[i] == TaskflowIdOf(results[i]).value
  {
    FilterMapTotal(results, TaskflowIdOf);
  }

  /** The taskflow entry of the queue: its id and status. */
  datatype QueueEntry = QueueEntry(taskflowId: string, status: string)

  function WithStatus(status: string): QueueEntry -> bool {
    (e: QueueEntry) => e.status == status
  }

  function Ids(entries: seq<QueueEntry>): (ids: seq<string>)
    ensures |ids| == |entries| && forall i :: 0 <= i < |entries| ==> ids[i] == entries[i].taskflowId
  {
    seq(|entries|, i requires 0 <= i < |entries| => entries[i].taskflowId)
  }

  /** `queue`: one pass over the queue's taskflows collecting the running and
      the pending ones, each in queue order; the running come first and every
      other status is dropped. */
  method QueueOrder(entries: seq<QueueEntry>) returns (ids: seq<string>)
    ensures ids == Ids(Filter(entries, WithStatus("running"))) + Ids(Filter(entries, WithStatus("pending")))
  {
    var running: seq<string> := [];
    var pending: seq<string> := [];
    var i := 0;
    while i < |entries|
      invariant 0 <= i <= |entries|
      invariant running == Ids(Filter(entries[..i], WithStatus("running")))
      invariant pending == Ids(Filter(entries[..i], WithStatus("pending")))
    {
      assert entries[..i + 1] == entries[..i] + [entries[i]];
      FilterAppend(entries[..i], entries[i], WithStatus("running"));
      FilterAppend(entries[..i], entries[i], WithStatus("pending"));
      if entries[i].status == "pending" {
        pending := pending + [entries[i].taskflowId];
      } else if entries[i].status == "running" {
        running := running + [entries[i].taskflowId];
      }
      i := i + 1;
    }
    assert entries[..i] == entries;
    ids := running + pending;
  }

  /** Every listed id is running or pending, and a running taskflow is listed
      before any pending one. */
  lemma QueueOrderShape(entries: seq<QueueEntry>)
    ensures var running := Filter(entries, WithStatus("running"));
            var pending := Filter(entries, WithStatus("pending"));
            (forall e :: e in running ==> e in entries && e.status == "running")
            && (forall e :: e in pending ==> e in entries && e.status == "pending")
            && (forall e :: e in entries && e.status == "running" ==> e in running)
            && (forall e :: e in entries && e.status == "pending" ==> e in pending)
  {
    FilterKeepsAll(entries, WithStatus("running"));
    FilterKeepsAll(entries, WithStatus("pending"));
    forall e | e in entries && e.status == "running"
      ensures e in Filter(entries, WithStatus("running"))
    {
      assert multiset(entries)[e] > 0;
    }
    forall e | e in entries && e.status == "pending"
      ensures e in Filter(entries, WithStatus("pending"))
    {
      assert multiset(entries)[e] > 0;
    }
  }
}
