/** Prompt templates (langchain's `PromptTemplate`) and the three templates of the pipeline
    (app/core/prompts/) that the core formats. A template is literal text interleaved with named slots, and
    formatting it replaces each slot with the value supplied for its name. */
module Prompts {
  import Str = Text

  datatype Piece = Text(text: string) | Slot(name: string)

  type Template = seq<Piece>

  /** Every slot of the template has a value. */
  predicate Fills(t: Template, values: map<string, string>) {
    forall k :: 0 <= k < |t| && t[k].Slot? ==> t[k].name in values
  }

  function PieceText(p: Piece, values: map<string, string>): string
    requires p.Slot? ==> p.name in values
  {
    match p
    case Text(s) => s
    case Slot(name) => values[name]
  }

  /** `template.format(**values)`. */
  function Render(t: Template, values: map<string, string>): string
    requires Fills(t, values)
  {
    if t == [] then [] else PieceText(t[0], values) + Render(t[1..], values)
  }

  /** Formatting a template made of two parts formats each part in turn. */
  lemma {:induction false} RenderAppend(t1: Template, t2: Template, values: map<string, string>)
    requires Fills(t1, values) && Fills(t2, values)
    ensures Fills(t1 + t2, values)
    ensures Render(t1 + t2, values) == Render(t1, values) + Render(t2, values)
  {
    if t1 == [] {
      assert t1 + t2 == t2;
    } else {
      assert (t1 + t2)[1..] == t1[1..] + t2;
      RenderAppend(t1[1..], t2, values);
    }
  }

  /** A value appears in the output wherever its slot is: the output is the rendering of the
      pieces before the slot, the value, then the rendering of the pieces after it. */
  lemma {:induction false} RenderAt(t: Template, k: nat, values: map<string, string>)
    requires Fills(t, values)
    requires k < |t| && t[k].Slot?
    ensures Fills(t[..k], values) && Fills(t[k + 1..], values)
    ensures Render(t, values) == Render(t[..k], values) + values[t[k].name] + Render(t[k + 1..], values)
  {
    assert t == t[..k] + ([t[k]] + t[k + 1..]);
    RenderAppend([t[k]], t[k + 1..], values);
    RenderAppend(t[..k], [t[k]] + t[k + 1..], values);
    assert [t[k]][1..] == [];
  }

  /** Whatever value a slot is given occurs in the output. */
  lemma RenderShowsSlot(t: Template, k: nat, values: map<string, string>)
    requires Fills(t, values)
    requires k < |t| && t[k].Slot?
    ensures Str.Occurs(values[t[k].name], Render(t, values))
  {
    RenderAt(t, k, values);
    var before, value := Render(t[..k], values), values[t[k].name];
    var out := Render(t, values);
    assert out[|before|..|before| + |value|] == value;
    assert Str.OccursAt(value, out, |before|);
  }

  /** A template that closes with a slot and a line break, extended by a line break and the
      same slot again, renders the slot's value twice with a blank line between them. */
  lemma RenderSlotTwice(body: Template, name: string, values: map<string, string>)
    requires Fills(body, values) && name in values
    ensures Fills(body + [Slot(name), Text("\n")] + [Text("\n"), Slot(name)], values)
    ensures Render(body + [Slot(name), Text("\n")] + [Text("\n"), Slot(name)], values) ==
      Render(body, values) + values[name] + "\n\n" + values[name]
  {
    var tail: Template := [Slot(name), Text("\n"), Text("\n"), Slot(name)];
    assert body + [Slot(name), Text("\n")] + [Text("\n"), Slot(name)] == body + tail;
    RenderAppend(body, tail, values);
    assert Render(tail[3..], values) == values[name] by {
      assert tail[3..][1..] == [];
    }
    assert tail[2..][1..] == tail[3..] && tail[1..][1..] == tail[2..] && tail[1..] == tail[1..];
    assert Render(tail[1..], values) == "\n" + ("\n" + values[name]);
  }

  /** `TREND_ANALYSIS_PROMPT` (trend_prompts.py): its text up to the format instructions,
      which close it, followed by a line break. */
  const TrendAnalysisPrompt: Template := TrendAnalysisBody + [Slot("format_instructions"), Text("\n")]

  /** The template's text, one piece per line. */
  const TrendAnalysisBody: Template := [
    Text("\n"),
    Text("    Analyze current trends for ad generation based on the following information:\n"),
    Text("    Guidelines: "), Slot("guidelines"), Text("\n"),
    Text("    Region: "), Slot("region"), Text("\n"),
    Text("    Campaign Details: "), Slot("campaign"), Text("\n"),
    Text("\n"),
    Text("    Your task is to:\n"),
    Text("    1. Identify key market trends relevant to the campaign\n"),
    Text("    2. Extract target audience preferences\n"),
    Text("    3. Analyze competitor strategies\n"),
    Text("    4. Determine optimal ad messaging approach\n"),
    Text("\n"),
    Text("    Provide a structured analysis following the exact format specified in the format instructions below.\n"),
    Text("    Make sure to include all required fields and format them according to the schema.\n"),
    Text("\n"),
    Text("    Format the extracted information in the following JSON structure:\n"),
    Text("    ")]

  /** `IMAGE_GENERATION_PROMPT` (image_prompts.py), one piece per line. */
  const ImageGenerationPrompt: Template := [
    Text("\n"),
    Text("Generate an advertising image based on:\n"),
    Text("Trend Data: "), Slot("trend_data"), Text("\n"),
    Text("Design Plan: "), Slot("design_plan"), Text("\n"),
    Text("Brand Guidelines: "), Slot("brand_metadata"), Text("\n"),
    Text("\n"),
    Text("Key Requirements:\n"),
    Text("1. Follow brand color scheme and typography\n"),
    Text("2. Incorporate specified logo placement\n"),
    Text("3. Maintain visual hierarchy according to design plan\n"),
    Text("4. Ensure messaging alignment with trend analysis\n"),
    Text("\n"),
    Text("The image should be high-resolution, professional, and optimized for "), Slot("format"), Text(".\n")]

  /** `IMAGE_REFINEMENT_PROMPT` (image_prompts.py), one piece per line. */
  const ImageRefinementPrompt: Template := [
    Text("\n"),
    Text("Refine the generated image considering:\n"),
    Text("1. Brand consistency\n"),
    Text("2. Message clarity\n"),
    Text("3. Visual impact\n"),
    Text("4. Technical specifications\n"),
    Text("\n"),
    Text("Adjust:\n"),
    Text("- Composition: "), Slot("composition_details"), Text("\n"),
    Text("- Color balance: "), Slot("color_requirements"), Text("\n"),
    Text("- Element placement: "), Slot("placement_guidelines"), Text("\n")]

  /** Each value of the generation prompt shows in its rendering. */
  lemma GenerationSlotsShow(values: map<string, string>)
    requires "trend_data" in values && "design_plan" in values && "brand_metadata" in values && "format" in values
    ensures Fills(ImageGenerationPrompt, values)
    ensures Str.Occurs(values["trend_data"], Render(ImageGenerationPrompt, values))
    ensures Str.Occurs(values["design_plan"], Render(ImageGenerationPrompt, values))
    ensures Str.Occurs(values["brand_metadata"], Render(ImageGenerationPrompt, values))
    ensures Str.Occurs(values["format"], Render(ImageGenerationPrompt, values))
  {
    var t := ImageGenerationPrompt;
    assert Fills(t, values);
    assert t[3] == Slot("trend_data") && t[6] == Slot("design_plan");
    assert t[9] == Slot("brand_metadata") && t[19] == Slot("format");
    RenderShowsSlot(t, 3, values);
    RenderShowsSlot(t, 6, values);
    RenderShowsSlot(t, 9, values);
    RenderShowsSlot(t, 19, values);
  }

  /** Each value of the refinement prompt shows in its rendering. */
  lemma RefinementSlotsShow(values: map<string, string>)
    requires "composition_details" in values && "color_requirements" in values && "placement_guidelines" in values
    ensures Fills(ImageRefinementPrompt, values)
    ensures Str.Occurs(values["composition_details"], Render(ImageRefinementPrompt, values))
    ensures Str.Occurs(values["color_requirements"], Render(ImageRefinementPrompt, values))
    ensures Str.Occurs(values["placement_guidelines"], Render(ImageRefinementPrompt, values))
  {
    var t := ImageRefinementPrompt;
    assert Fills(t, values);
    assert t[9] == Slot("composition_details") && t[12] == Slot("color_requirements") && t[15] == Slot("placement_guidelines");
    RenderShowsSlot(t, 9, values);
    RenderShowsSlot(t, 12, values);
    RenderShowsSlot(t, 15, values);
  }
}
