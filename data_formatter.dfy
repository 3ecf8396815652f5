/** DataFormatter (app/core/utils/data_formatter.py): reshapes trend analysis output and brand
    guidelines into the fixed dicts the image stage reads. Every key is read with a default, so
    the only failures are AttributeErrors from calling `.get` on something that is not a dict. */
module DataFormatter {
  import opened Results
  import opened JsonValues

  const TrendDataError := "Error formatting trend data: "
  const BrandGuidelinesError := "Error formatting brand guidelines: "

  /** What `_extract_visual_elements` yields when the input has no `visual_elements`. */
  const DefaultVisualElements: Json := JMap(map[
    "primary_elements" := EmptyList,
    "secondary_elements" := EmptyList,
    "background" := EmptyMap,
    "layout_preferences" := EmptyMap])

  /** What `_create_composition_guidelines` yields when the input has no `composition`. */
  const DefaultComposition: Json := JMap(map[
    "layout" := JStr("balanced"),
    "focal_points" := EmptyList,
    "hierarchy" := EmptyList,
    "spacing" := EmptyMap])

  /** `_extract_visual_elements`: the four entries of `visual_elements`, renamed. */
  function ExtractVisualElements(data: Json): (r: Result<Json>)
    ensures r.Ok? <==> data.JMap? && DictOrAbsent(data.fields, "visual_elements")
    ensures !data.JMap? ==> r == Err(NoAttribute(data, "get"))
    ensures data.JMap? && !DictOrAbsent(data.fields, "visual_elements") ==>
      r == Err(NoAttribute(data.fields["visual_elements"], "get"))
    ensures r.Ok? ==> (r.value.JMap? &&
      var out, ve := r.value.fields, Get(data.fields, "visual_elements", EmptyMap).fields;
      && out.Keys == {"primary_elements", "secondary_elements", "background", "layout_preferences"}
      && Carries(out, "primary_elements", ve, "primary", EmptyList)
      && Carries(out, "secondary_elements", ve, "secondary", EmptyList)
      && Carries(out, "background", ve, "background", EmptyMap)
      && Carries(out, "layout_preferences", ve, "layout", EmptyMap))
  {
    var ve :- GetFrom(data, "visual_elements", EmptyMap);
    if !ve.JMap? then Err(NoAttribute(ve, "get"))
    else
      Ok(JMap(map[
        "primary_elements" := Get(ve.fields, "primary", EmptyList),
        "secondary_elements" := Get(ve.fields, "secondary", EmptyList),
        "background" := Get(ve.fields, "background", EmptyMap),
        "layout_preferences" := Get(ve.fields, "layout", EmptyMap)]))
  }

  /** `_create_composition_guidelines`: the four entries of `composition`, with defaults. */
  function CreateCompositionGuidelines(data: Json): (r: Result<Json>)
    ensures r.Ok? <==> data.JMap? && DictOrAbsent(data.fields, "composition")
    ensures !data.JMap? ==> r == Err(NoAttribute(data, "get"))
    ensures data.JMap? && !DictOrAbsent(data.fields, "composition") ==>
      r == Err(NoAttribute(data.fields["composition"], "get"))
    ensures r.Ok? ==> (r.value.JMap? &&
      var out, c := r.value.fields, Get(data.fields, "composition", EmptyMap).fields;
      && out.Keys == {"layout", "focal_points", "hierarchy", "spacing"}
      && Carries(out, "layout", c, "layout", JStr("balanced"))
      && Carries(out, "focal_points", c, "focal_points", EmptyList)
      && Carries(out, "hierarchy", c, "hierarchy", EmptyList)
      && Carries(out, "spacing", c, "spacing", EmptyMap))
  {
    var c :- GetFrom(data, "composition", EmptyMap);
    if !c.JMap? then Err(NoAttribute(c, "get"))
    else
      Ok(JMap(map[
        "layout" := Get(c.fields, "layout", JStr("balanced")),
        "focal_points" := Get(c.fields, "focal_points", EmptyList),
        "hierarchy" := Get(c.fields, "hierarchy", EmptyList),
        "spacing" := Get(c.fields, "spacing", EmptyMap)]))
  }

  /** The input shapes `format_trend_data` accepts: a dict whose `visual_elements` and
      `composition`, where present, are dicts too. */
  predicate TrendDataShaped(raw: Json) {
    raw.JMap? && DictOrAbsent(raw.fields, "visual_elements") && DictOrAbsent(raw.fields, "composition")
  }

  /** `format_trend_data`: always exactly four keys; trends and audience insights pass through;
      visual elements and composition are normalised. Anything else fails with the prefix. */
  function FormatTrendData(raw: Json): (r: Result<Json>)
    ensures r.Ok? <==> TrendDataShaped(raw)
    ensures r.Err? ==> |r.message| > |TrendDataError| && r.message[..|TrendDataError|] == TrendDataError
    ensures !raw.JMap? ==> r == Err(TrendDataError + NoAttribute(raw, "get"))
    ensures r.Ok? ==> (r.value.JMap? &&
      var out := r.value.fields;
      && out.Keys == {"market_trends", "audience_insights", "visual_elements", "composition_guidelines"}
      && Carries(out, "market_trends", raw.fields, "market_trends", EmptyList)
      && Carries(out, "audience_insights", raw.fields, "audience_insights", EmptyMap)
      && Ok(out["visual_elements"]) == ExtractVisualElements(raw)
      && Ok(out["composition_guidelines"]) == CreateCompositionGuidelines(raw))
  {
    Wrap(TrendDataError, FormatTrendDataUnwrapped(raw))
  }

  /** The body of the `try` in `format_trend_data`, evaluated in dict-literal order. */
  function FormatTrendDataUnwrapped(raw: Json): Result<Json> {
    if !raw.JMap? then Err(NoAttribute(raw, "get"))
    else
    var visualElements :- ExtractVisualElements(raw);
    var composition :- CreateCompositionGuidelines(raw);
    Ok(JMap(map[
      "market_trends" := Get(raw.fields, "market_trends", EmptyList),
      "audience_insights" := Get(raw.fields, "audience_insights", EmptyMap),
      "visual_elements" := visualElements,
      "composition_guidelines" := composition]))
  }

  /** A sparse input, one with neither `visual_elements` nor `composition` (for instance
      `{"market_trends": ["x"]}`), never fails and gets every visual and composition default. */
  lemma SparseInputGetsDefaults(raw: map<string, Json>)
    requires "visual_elements" !in raw && "composition" !in raw
    ensures FormatTrendData(JMap(raw)) == Ok(JMap(map[
      "market_trends" := Get(raw, "market_trends", EmptyList),
      "audience_insights" := Get(raw, "audience_insights", EmptyMap),
      "visual_elements" := DefaultVisualElements,
      "composition_guidelines" := DefaultComposition]))
  {
    var r := FormatTrendData(JMap(raw));
    var out := r.value.fields;
    assert out["visual_elements"] == DefaultVisualElements;
    assert out["composition_guidelines"] == DefaultComposition;
  }

  /** Formatting an already formatted value keeps its trends and audience insights, and also
      its `background` (the one visual entry whose input and output names agree), but resets
      the other visual elements and the whole composition to their defaults: the output names
      its entries `primary_elements`, `secondary_elements`, `layout_preferences` and
      `composition_guidelines`, while the input is read at `primary`, `secondary`, `layout`
      and `composition`. */
  lemma ReformatResetsDerivedKeys(raw: Json)
    requires FormatTrendData(raw).Ok?
    ensures var once := FormatTrendData(raw).value;
      FormatTrendData(once) == Ok(JMap(map[
        "market_trends" := once.fields["market_trends"],
        "audience_insights" := once.fields["audience_insights"],
        "visual_elements" := JMap(map[
          "primary_elements" := EmptyList,
          "secondary_elements" := EmptyList,
          "background" := once.fields["visual_elements"].fields["background"],
          "layout_preferences" := EmptyMap]),
        "composition_guidelines" := DefaultComposition]))
  {
    var once := FormatTrendData(raw).value;
    var ve := once.fields["visual_elements"];
    assert ve.JMap? && "primary" !in ve.fields && "secondary" !in ve.fields && "layout" !in ve.fields;
    assert "composition" !in once.fields;
    var twice := FormatTrendData(once).value.fields;
    assert twice["composition_guidelines"] == DefaultComposition;
  }

  /** So `format_trend_data` is not idempotent: a visual element given in the input is lost
      when the output is formatted again. */
  lemma FormatTrendDataNotIdempotent()
    ensures var raw := JMap(map["visual_elements" := JMap(map["primary" := JList([JStr("logo")])])]);
      FormatTrendData(raw).Ok? && FormatTrendData(FormatTrendData(raw).value) != FormatTrendData(raw)
  {
    var raw := JMap(map["visual_elements" := JMap(map["primary" := JList([JStr("logo")])])]);
    var once := FormatTrendData(raw).value;
    ReformatResetsDerivedKeys(raw);
    assert once.fields["visual_elements"].fields["primary_elements"] == JList([JStr("logo")]);
    assert DefaultVisualElements.fields["primary_elements"] == EmptyList;
  }

  /** `_parse_colors`: the three colour lists, each defaulting to an empty list. */
  function ParseColors(data: Json): (r: Result<Json>)
    ensures r.Ok? <==> data.JMap? && DictOrAbsent(data.fields, "colors")
    ensures r.Ok? ==> (r.value.JMap? &&
      var out, c := r.value.fields, Get(data.fields, "colors", EmptyMap).fields;
      && out.Keys == {"primary", "secondary", "accent"}
      && Carries(out, "primary", c, "primary", EmptyList)
      && Carries(out, "secondary", c, "secondary", EmptyList)
      && Carries(out, "accent", c, "accent", EmptyList))
  {
    var c :- GetFrom(data, "colors", EmptyMap);
    if !c.JMap? then Err(NoAttribute(c, "get"))
    else
      Ok(JMap(map[
        "primary" := Get(c.fields, "primary", EmptyList),
        "secondary" := Get(c.fields, "secondary", EmptyList),
        "accent" := Get(c.fields, "accent", EmptyList)]))
  }

  /** `_parse_typography`: both fonts default to the empty string, and `sizes` is renamed
      `font_sizes`. */
  function ParseTypography(data: Json): (r: Result<Json>)
    ensures r.Ok? <==> data.JMap? && DictOrAbsent(data.fields, "typography")
    ensures r.Ok? ==> (r.value.JMap? &&
      var out, t := r.value.fields, Get(data.fields, "typography", EmptyMap).fields;
      && out.Keys == {"primary_font", "secondary_font", "font_sizes"}
      && Carries(out, "primary_font", t, "primary_font", JStr(""))
      && Carries(out, "secondary_font", t, "secondary_font", JStr(""))
      && Carries(out, "font_sizes", t, "sizes", EmptyMap))
  {
    var t :- GetFrom(data, "typography", EmptyMap);
    if !t.JMap? then Err(NoAttribute(t, "get"))
    else
      Ok(JMap(map[
        "primary_font" := Get(t.fields, "primary_font", JStr("")),
        "secondary_font" := Get(t.fields, "secondary_font", JStr("")),
        "font_sizes" := Get(t.fields, "sizes", EmptyMap)]))
  }

  /** `_parse_logo_requirements`: placement, size and clearspace, defaulting to top-left,
      medium and 10%. */
  function ParseLogoRequirements(data: Json): (r: Result<Json>)
    ensures r.Ok? <==> data.JMap? && DictOrAbsent(data.fields, "logo")
    ensures r.Ok? ==> (r.value.JMap? &&
      var out, l := r.value.fields, Get(data.fields, "logo", EmptyMap).fields;
      && out.Keys == {"placement", "size", "clearspace"}
      && Carries(out, "placement", l, "placement", JStr("top-left"))
      && Carries(out, "size", l, "size", JStr("medium"))
      && Carries(out, "clearspace", l, "clearspace", JStr("10%")))
  {
    var l :- GetFrom(data, "logo", EmptyMap);
    if !l.JMap? then Err(NoAttribute(l, "get"))
    else
      Ok(JMap(map[
        "placement" := Get(l.fields, "placement", JStr("top-left")),
        "size" := Get(l.fields, "size", JStr("medium")),
        "clearspace" := Get(l.fields, "clearspace", JStr("10%"))]))
  }

  /** The parsed brand data `format_brand_guidelines` accepts: a dict whose `colors`,
      `typography` and `logo`, where present, are dicts too. */
  predicate BrandDataShaped(parsed: Json) {
    && parsed.JMap?
    && DictOrAbsent(parsed.fields, "colors")
    && DictOrAbsent(parsed.fields, "typography")
    && DictOrAbsent(parsed.fields, "logo")
  }

  /** `json.loads(brand_data) if isinstance(brand_data, str) else brand_data`, with `loads`
      (`json.loads`) left abstract. */
  function ParsedBrandData(loads: string -> Result<Json>, brandData: Json): (r: Result<Json>)
    ensures brandData.JStr? ==> r == loads(brandData.s)
    ensures !brandData.JStr? ==> r == Ok(brandData)
  {
    if brandData.JStr? then loads(brandData.s) else Ok(brandData)
  }

  /** `format_brand_guidelines`: the result always has exactly the four keys, and a parse
      failure or a wrongly shaped value fails with the prefix. */
  function FormatBrandGuidelines(loads: string -> Result<Json>, brandData: Json): (r: Result<Json>)
    ensures var parsed := ParsedBrandData(loads, brandData);
      && (r.Ok? <==> parsed.Ok? && BrandDataShaped(parsed.value))
      && (r.Err? ==> |r.message| >= |BrandGuidelinesError| && r.message[..|BrandGuidelinesError|] == BrandGuidelinesError)
      && (parsed.Err? ==> r.message == BrandGuidelinesError + parsed.message)
      && (r.Ok? ==>
            && r.value.JMap?
            && var out := r.value.fields;
            && out.Keys == {"colors", "typography", "logo", "brand_voice"}
            && Ok(out["colors"]) == ParseColors(parsed.value)
            && Ok(out["typography"]) == ParseTypography(parsed.value)
            && Ok(out["logo"]) == ParseLogoRequirements(parsed.value)
            && Carries(out, "brand_voice", parsed.value.fields, "brand_voice", EmptyMap))
  {
    Wrap(BrandGuidelinesError, FormatBrandGuidelinesUnwrapped(loads, brandData))
  }

  /** The body of the `try` in `format_brand_guidelines`, evaluated in dict-literal order. */
  function FormatBrandGuidelinesUnwrapped(loads: string -> Result<Json>, brandData: Json): Result<Json> {
    var parsed :- ParsedBrandData(loads, brandData);
    var colors :- ParseColors(parsed);
    var typography :- ParseTypography(parsed);
    var logo :- ParseLogoRequirements(parsed);
    Ok(JMap(map[
      "colors" := colors,
      "typography" := typography,
      "logo" := logo,
      "brand_voice" := Get(parsed.fields, "brand_voice", EmptyMap)]))
  }

  /** Brand data given as a dict is used as it is, without parsing: formatting it does not
      depend on the parser. */
  lemma BrandDictNeedsNoParsing(loads1: string -> Result<Json>, loads2: string -> Result<Json>, brandData: map<string, Json>)
    ensures FormatBrandGuidelines(loads1, JMap(brandData)) == FormatBrandGuidelines(loads2, JMap(brandData))
  {
  }

  /** Brand data that is an empty dict gets every default: no colours, empty font names, a
      medium logo at the top left with 10% clearspace, and an empty brand voice. */
  lemma EmptyBrandDataGetsDefaults(loads: string -> Result<Json>, brandData: string)
    requires loads(brandData) == Ok(EmptyMap)
    ensures FormatBrandGuidelines(loads, JStr(brandData)) == FormatBrandGuidelines(loads, EmptyMap)
    ensures FormatBrandGuidelines(loads, JStr(brandData)) == Ok(JMap(map[
      "colors" := JMap(map["primary" := EmptyList, "secondary" := EmptyList, "accent" := EmptyList]),
      "typography" := JMap(map["primary_font" := JStr(""), "secondary_font" := JStr(""), "font_sizes" := EmptyMap]),
      "logo" := JMap(map["placement" := JStr("top-left"), "size" := JStr("medium"), "clearspace" := JStr("10%")]),
      "brand_voice" := EmptyMap]))
  {
    var out := FormatBrandGuidelines(loads, JStr(brandData)).value.fields;
    assert out["colors"] == JMap(map["primary" := EmptyList, "secondary" := EmptyList, "accent" := EmptyList]);
    assert out["typography"] == JMap(map["primary_font" := JStr(""), "secondary_font" := JStr(""), "font_sizes" := EmptyMap]);
    assert out["logo"] == JMap(map["placement" := JStr("top-left"), "size" := JStr("medium"), "clearspace" := JStr("10%")]);
  }
}
