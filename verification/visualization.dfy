/** The viewer side of a molecule or calculation: the transfer function
    turned into viewer parameters, the parameters `show` sends, the shareable
    URL, the rows of the vibrational-mode table and the orbital data. */
module Visualization {
  import opened Wrappers

  datatype VizError =
    | AttributeError(key: string)   // a colour or opacity map that is not a dictionary
    | ValueError                    // no URL: the structure does not come from the store
    | KeyError(key: string)         // a document entry that is missing
    | NotAList(key: string)         // a table column that is not an array
    | TypeError(key: string, index: nat)  // a table entry `float()` cannot convert

  /** `dict.get(k)` seen through `is not None`: the entry, absent or `None`
      both reading as `None`. */
  function Entry(m: map<string, Json>, k: string): Json {
    if k in m then m[k] else JNull
  }

  // ---------------------------------------------------------------------------
  // Transfer functions

  /** The five keys a transfer function can contribute. */
  const TransferKeys: set<string> := {"colors", "activeMapName", "colorsX", "opacities", "opacitiesX"}

  /** A sub-map that `.get` cannot be called on. */
  predicate BadSubMap(tf: map<string, Json>, k: string) {
    Entry(tf, k) != JNull && !Entry(tf, k).JObj?
  }

  /** `value` under `key` when it is not `None`. */
  function Maybe(key: string, value: Json): (r: map<string, Json>)
    ensures forall k :: k in r ==> r[k] != JNull
  {
    if value == JNull then map[] else map[key := value]
  }

  /** The colour-map entries: colours with the `Custom` map name, and their
      points. */
  function ColormapParams(cm: map<string, Json>): (r: map<string, Json>)
    ensures ("colors" in r <==> Entry(cm, "colors") != JNull) && ("activeMapName" in r <==> "colors" in r)
    ensures "colorsX" in r <==> Entry(cm, "points") != JNull
    ensures r.Keys <= {"colors", "activeMapName", "colorsX"}
    ensures forall k :: k in r ==> r[k] != JNull
  {
    var colors := Entry(cm, "colors");
    var named := if colors == JNull then map[] else map["colors" := colors, "activeMapName" := JStr("Custom")];
    named + Maybe("colorsX", Entry(cm, "points"))
  }

  /** The opacity-map entries: opacities and their points. */
  function OpacitymapParams(om: map<string, Json>): (r: map<string, Json>)
    ensures "opacities" in r <==> Entry(om, "opacities") != JNull
    ensures "opacitiesX" in r <==> Entry(om, "points") != JNull
    ensures r.Keys <= {"opacities", "opacitiesX"}
    ensures forall k :: k in r ==> r[k] != JNull
  {
    Maybe("opacities", Entry(om, "opacities")) + Maybe("opacitiesX", Entry(om, "points"))
  }

  /** `_transfer_function_to_params`: nothing for a missing or non-dictionary
      transfer function; otherwise the colour-map entries, then the
      opacity-map entries. A map that is present but not a dictionary fails
      on `.get`, the colour map first. */
  function TransferFunctionParams(tf: Json): (r: Result<map<string, Json>, VizError>)
    ensures !tf.JObj? ==> r == Ok(map[])
    ensures tf.JObj? && BadSubMap(tf.fields, "colormap") ==> r == Err(AttributeError("colormap"))
    ensures tf.JObj? && !BadSubMap(tf.fields, "colormap") && BadSubMap(tf.fields, "opacitymap") ==>
              r == Err(AttributeError("opacitymap"))
    ensures r.Ok? ==> r.value.Keys <= TransferKeys
    ensures r.Ok? ==> forall k :: k in r.value && k != "activeMapName" ==> r.value[k] != JNull
  {
    if !tf.JObj? then Ok(map[])
    else
      var cm := Entry(tf.fields, "colormap");
      var om := Entry(tf.fields, "opacitymap");
      if cm != JNull && !cm.JObj? then Err(AttributeError("colormap"))
      else if om != JNull && !om.JObj? then Err(AttributeError("opacitymap"))
      else
        var colour := if cm.JObj? then ColormapParams(cm.fields) else map[];
        var opacity := if om.JObj? then OpacitymapParams(om.fields) else map[];
        Ok(colour + opacity)
  }

  /** Viewer parameters of the shape a transfer function produces: every value
      set, and the `Custom` map name exactly alongside the colours. */
  predicate WellFormedTransfer(p: map<string, Json>) {
    && p.Keys <= TransferKeys
    && (forall k :: k in p ==> p[k] != JNull)
    && ("colors" in p <==> "activeMapName" in p)
    && ("activeMapName" in p ==> p["activeMapName"] == JStr("Custom"))
  }

  /** The transfer function a set of viewer parameters came from: the inverse
      of `TransferFunctionParams`. */
  function TransferFunctionOf(p: map<string, Json>): Json {
    JObj(map["colormap" := JObj(map["colors" := Entry(p, "colors"), "points" := Entry(p, "colorsX")]),
             "opacitymap" := JObj(map["opacities" := Entry(p, "opacities"), "points" := Entry(p, "opacitiesX")])])
  }

  /** Every parameter set of the transfer-function shape comes from a
      transfer function, and the parameters of a transfer function always
      have that shape. */
  lemma TransferFunctionRoundTrip(p: map<string, Json>)
    requires WellFormedTransfer(p)
    ensures TransferFunctionParams(TransferFunctionOf(p)) == Ok(p)
  {
    var tf := TransferFunctionOf(p);
    var cm := map["colors" := Entry(p, "colors"), "points" := Entry(p, "colorsX")];
    var om := map["opacities" := Entry(p, "opacities"), "points" := Entry(p, "opacitiesX")];
    SubMapsOf(p);
    var colour := ColormapParams(cm);
    var opacity := OpacitymapParams(om);
    assert TransferFunctionParams(tf) == Ok(colour + opacity);
    ColourRoundTrip(p);
    OpacityRoundTrip(p);
    var r := colour + opacity;
    assert forall k :: k in r <==> k in p;
    assert forall k :: k in r ==> r[k] == p[k];
    assert r == p;
  }

  /** The two sub-maps of the transfer function built from `p`. */
  lemma SubMapsOf(p: map<string, Json>)
    ensures Entry(TransferFunctionOf(p).fields, "colormap")
         == JObj(map["colors" := Entry(p, "colors"), "points" := Entry(p, "colorsX")])
    ensures Entry(TransferFunctionOf(p).fields, "opacitymap")
         == JObj(map["opacities" := Entry(p, "opacities"), "points" := Entry(p, "opacitiesX")])
  {
  }

  /** The colour map built from `p` gives back `p`'s colour entries. */
  lemma ColourRoundTrip(p: map<string, Json>)
    requires WellFormedTransfer(p)
    ensures var c := ColormapParams(map["colors" := Entry(p, "colors"), "points" := Entry(p, "colorsX")]);
            && (forall k :: k in c <==> k in p && k in {"colors", "activeMapName", "colorsX"})
            && (forall k :: k in c ==> c[k] == p[k])
  {
    var cm := map["colors" := Entry(p, "colors"), "points" := Entry(p, "colorsX")];
    assert Entry(cm, "colors") == Entry(p, "colors");
    assert Entry(cm, "points") == Entry(p, "colorsX");
  }

  /** The opacity map built from `p` gives back `p`'s opacity entries. */
  lemma OpacityRoundTrip(p: map<string, Json>)
    requires WellFormedTransfer(p)
    ensures var o := OpacitymapParams(map["opacities" := Entry(p, "opacities"), "points" := Entry(p, "opacitiesX")]);
            && (forall k :: k in o <==> k in p && k in {"opacities", "opacitiesX"})
            && (forall k :: k in o ==> o[k] == p[k])
  {
    var om := map["opacities" := Entry(p, "opacities"), "points" := Entry(p, "opacitiesX")];
    assert Entry(om, "opacities") == Entry(p, "opacities");
    assert Entry(om, "points") == Entry(p, "opacitiesX");
  }

  lemma TransferFunctionParamsWellFormed(tf: Json)
    requires TransferFunctionParams(tf).Ok?
    ensures WellFormedTransfer(TransferFunctionParams(tf).value)
  {
  }

  // ---------------------------------------------------------------------------
  // show

  /** The arguments of `Visualization.show` that reach the viewer. */
  datatype ShowArgs = ShowArgs(viewer: string, spectrum: bool, volume: bool, isosurface: bool, menu: bool,
                               mo: Json, iso: Json, mode: int, play: bool, transferFunction: Json)

  /** The nine keys `show` always sends. */
  const FixedKeys: set<string> := {"moleculeRenderer", "showSpectrum", "showVolume", "showIsoSurface", "showMenu",
                                    "mo", "isoValue", "mode", "play"}

  function FixedParams(a: ShowArgs): map<string, Json> {
    map["moleculeRenderer" := JStr(a.viewer), "showSpectrum" := JBool(a.spectrum), "showVolume" := JBool(a.volume),
        "showIsoSurface" := JBool(a.isosurface), "showMenu" := JBool(a.menu), "mo" := a.mo, "isoValue" := a.iso,
        "mode" := JInt(a.mode), "play" := JBool(a.play)]
  }

  lemma FixedParamsShape(a: ShowArgs)
    ensures FixedParams(a).Keys == FixedKeys
    ensures FixedKeys !! TransferKeys
  {
  }

  /** `show`'s parameters: the nine fixed keys, then the transfer-function
      entries, which never collide with them. */
  function ShowParams(a: ShowArgs): (r: Result<map<string, Json>, VizError>)
    ensures r.Ok? <==> TransferFunctionParams(a.transferFunction).Ok?
    ensures r.Ok? ==> r.value.Keys == FixedKeys + TransferFunctionParams(a.transferFunction).value.Keys
    ensures r.Ok? ==> forall k :: k in TransferKeys && k in r.value ==>
              r.value[k] == TransferFunctionParams(a.transferFunction).value[k]
  {
    var tf :- TransferFunctionParams(a.transferFunction);
    FixedParamsShape(a);
    Ok(FixedParams(a) + tf)
  }

  /** What a viewer reads back from the fixed parameters. */
  function ArgsOf(p: map<string, Json>, transferFunction: Json): Option<ShowArgs> {
    if FixedKeys <= p.Keys && p["moleculeRenderer"].JStr? && p["showSpectrum"].JBool? && p["showVolume"].JBool?
       && p["showIsoSurface"].JBool? && p["showMenu"].JBool? && p["mode"].JInt? && p["play"].JBool?
    then Some(ShowArgs(p["moleculeRenderer"].s, p["showSpectrum"].b, p["showVolume"].b, p["showIsoSurface"].b,
                       p["showMenu"].b, p["mo"], p["isoValue"], p["mode"].i, p["play"].b, transferFunction))
    else None
  }

  /** Nothing the caller asked for is lost: the arguments can be read back
      from the parameters. */
  lemma ShowParamsKeepArgs(a: ShowArgs)
    requires ShowParams(a).Ok?
    ensures ArgsOf(ShowParams(a).value, a.transferFunction) == Some(a)
  {
    var p := ShowParams(a).value;
    var fixed := FixedParams(a);
    FixedParamsShape(a);
    assert forall k :: k in FixedKeys ==> p[k] == fixed[k];
  }

  /** `Orbitals.show`: its own defaults for volume, isosurface, orbital and
      iso value; the spectrum, mode and animation keep the base defaults. */
  function OrbitalsShowArgs(viewer: string, volume: bool, isosurface: bool, menu: bool, mo: Json, iso: Json,
                            transferFunction: Json): (a: ShowArgs)
    ensures !a.spectrum && a.mode == -1 && !a.play
    ensures a.viewer == viewer && a.volume == volume && a.isosurface == isosurface && a.menu == menu
    ensures a.mo == mo && a.iso == iso && a.transferFunction == transferFunction
  {
    ShowArgs(viewer, false, volume, isosurface, menu, mo, iso, -1, false, transferFunction)
  }

  /** The orbital view never turns on the spectrum or the animation. */
  lemma OrbitalsShowQuiet(viewer: string, volume: bool, isosurface: bool, menu: bool, mo: Json, iso: Json,
                          transferFunction: Json)
    requires TransferFunctionParams(transferFunction).Ok?
    ensures var p := ShowParams(OrbitalsShowArgs(viewer, volume, isosurface, menu, mo, iso, transferFunction));
            p.Ok? && p.value["showSpectrum"] == JBool(false) && p.value["play"] == JBool(false)
            && p.value["mode"] == JInt(-1)
  {
    var a := OrbitalsShowArgs(viewer, volume, isosurface, menu, mo, iso, transferFunction);
    ShowParamsKeepArgs(a);
  }

  // ---------------------------------------------------------------------------
  // url

  /** `Visualization.url`: the provider's URL, with the last parameters sent
      to `show` as a query string when there are any. `encode` is the
      query-string encoder. */
  function ViewerUrl(providerUrl: Option<string>, params: map<string, Json>, encode: map<string, Json> -> string)
    : (r: Result<string, VizError>)
    ensures providerUrl.None? <==> r == Err(ValueError)
    ensures providerUrl.Some? ==> r.Ok? && providerUrl.value <= r.value
    ensures providerUrl.Some? && |params| == 0 ==> r.value == providerUrl.value
    ensures providerUrl.Some? && |params| > 0 ==> r.value[|providerUrl.value|..] == "?" + encode(params)
  {
    match providerUrl
    case None => Err(ValueError)
    case Some(url) => Ok(if |params| == 0 then url else url + "?" + encode(params))
  }

  // ---------------------------------------------------------------------------
  // The table of vibrational modes

  /** One line of the table: the mode number, its frequency and its
      intensity, `None` standing for the `nan` the table prints. */
  datatype ModeRow = ModeRow(index: nat, frequency: Json, intensity: Option<Json>)

  /** `vibrations.get(key, [])` as a list of values. */
  function Column(vibrations: map<string, Json>, key: string): Result<seq<Json>, VizError> {
    if key !in vibrations then Ok([])
    else if vibrations[key].JArr? then Ok(vibrations[key].items)
    else Err(NotAList(key))
  }

  /** A value `float()` rejects with a `TypeError`: null, a list or an
      object. Numbers and booleans convert; a string that does not parse
      raises a `ValueError`, which the table catches and prints as `nan`. */
  predicate FloatRaises(j: Json) {
    j.JNull? || j.JArr? || j.JObj?
  }

  /** Row `i` of the table converts: its frequency, and its intensity when
      the intensities are used. */
  predicate RowConverts(freqs: seq<Json>, ints: seq<Json>, i: nat)
    requires i < |freqs|
  {
    !FloatRaises(freqs[i]) && (|ints| == |freqs| ==> !FloatRaises(ints[i]))
  }

  /** Every row of the table converts. */
  predicate TableConverts(freqs: seq<Json>, ints: seq<Json>) {
    forall i: nat :: i < |freqs| ==> RowConverts(freqs, ints, i)
  }

  /** The rows of `Vibrations._md_table`: one per frequency, in order; the
      intensities are used only when there are as many as frequencies. The
      first entry that `float()` rejects with a `TypeError` escapes the
      `except ValueError` and stops the table, the frequency of a row being
      converted before its intensity. */
  method ModeRows(vibrations: map<string, Json>) returns (r: Result<seq<ModeRow>, VizError>)
    ensures Column(vibrations, "frequencies").Err? ==> r == Err(NotAList("frequencies"))
    ensures Column(vibrations, "frequencies").Ok? && Column(vibrations, "intensities").Err? ==>
              r == Err(NotAList("intensities"))
    ensures r.Ok? <==> && Column(vibrations, "frequencies").Ok? && Column(vibrations, "intensities").Ok?
                       && TableConverts(Column(vibrations, "frequencies").value,
                                        Column(vibrations, "intensities").value)
    ensures r.Err? && r.error.TypeError? ==>
              && Column(vibrations, "frequencies").Ok? && Column(vibrations, "intensities").Ok?
              && var freqs := Column(vibrations, "frequencies").value;
                 var ints := Column(vibrations, "intensities").value;
                 var i := r.error.index;
                 && i < |freqs|
                 && (forall j: nat :: j < i ==> RowConverts(freqs, ints, j))
                 && !RowConverts(freqs, ints, i)
                 && (r.error.key == "frequencies" <==> FloatRaises(freqs[i]))
                 && (r.error.key == "frequencies" || r.error.key == "intensities")
    ensures r.Ok? ==> var freqs := Column(vibrations, "frequencies").value;
                      var ints := Column(vibrations, "intensities").value;
                      && |r.value| == |freqs|
                      && forall i :: 0 <= i < |freqs| ==>
                           r.value[i] == ModeRow(i, freqs[i], if |ints| == |freqs| then Some(ints[i]) else None)
  {
    var fc := Column(vibrations, "frequencies");
    if fc.Err? {
      return Err(NotAList("frequencies"));
    }
    var ic := Column(vibrations, "intensities");
    if ic.Err? {
      return Err(NotAList("intensities"));
    }
    var freqs, ints := fc.value, ic.value;
    var useIntensities := |ints| == |freqs|;
    var rows: seq<ModeRow> := [];
    var i := 0;
    while i < |freqs|
      invariant 0 <= i <= |freqs| && |rows| == i
      invariant forall j: nat :: j < i ==> RowConverts(freqs, ints, j)
      invariant forall j :: 0 <= j < i ==>
                  rows[j] == ModeRow(j, freqs[j], if useIntensities then Some(ints[j]) else None)
    {
      if FloatRaises(freqs[i]) {
        assert !RowConverts(freqs, ints, i);
        return Err(TypeError("frequencies", i));
      }
      if useIntensities && FloatRaises(ints[i]) {
        assert !RowConverts(freqs, ints, i);
        return Err(TypeError("intensities", i));
      }
      var intensity := if useIntensities then Some(ints[i]) else None;
      rows := rows + [ModeRow(i, freqs[i], intensity)];
      i := i + 1;
    }
    return Ok(rows);
  }

  // ---------------------------------------------------------------------------
  // Orbital data

  /** `Orbitals.data`: exactly the orbitals and the properties of the
      document; the first of them that is missing raises a `KeyError`. */
  function OrbitalsData(cjson: map<string, Json>): (r: Result<map<string, Json>, VizError>)
    ensures "orbitals" !in cjson <==> r == Err(KeyError("orbitals"))
    ensures "orbitals" in cjson && "properties" !in cjson <==> r == Err(KeyError("properties"))
    ensures r.Ok? <==> "orbitals" in cjson && "properties" in cjson
    ensures r.Ok? ==> r.value.Keys == {"orbitals", "properties"}
                      && forall k :: k in r.value ==> k in cjson && r.value[k] == cjson[k]
  {
    if "orbitals" !in cjson then Err(KeyError("orbitals"))
    else if "properties" !in cjson then Err(KeyError("properties"))
    else Ok(map["orbitals" := cjson["orbitals"], "properties" := cjson["properties"]])
  }

  /** `Properties.data`: the document's properties, or an empty dictionary. */
  function PropertiesData(cjson: map<string, Json>): (r: Json)
    ensures "properties" in cjson ==> r == cjson["properties"]
    ensures "properties" !in cjson ==> r == JObj(map[])
  {
    if "properties" in cjson then cjson["properties"] else JObj(map[])
  }
}
