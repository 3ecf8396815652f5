# Ad generation pipeline core, modelled in Dafny

This project models the core of the ad-generation service in Dafny: the code that turns the
uploaded inputs and a language model's trend analysis into the dicts the image stage reads,
and the image stage itself.

- **File processor** (`app/core/utils/file_processor.py`): picks a reader from the file name's
  extension (`pdf`, `docx`, `txt`, any letter case, the last dot decides). It then either joins
  the PDF page texts in page order, joins the DOCX paragraphs with line breaks, decodes UTF-8
  text, or rejects the file.
- **Data formatter** (`app/core/utils/data_formatter.py`): reshapes trend data and brand
  guidelines into fixed dicts. Every key is read with a default. The only failures are calls
  to `.get` on a value that is not a dict, and a failing `json.loads`.
- **Trend agent** (`app/core/agents/trend_agent.py`): does four things in turn.
  - It renders the trend prompt and parses the language model's reply into a `TrendAnalysis`.
  - It builds a web search query from the region and the first trend.
  - It files the search results into three buckets (`_process_search_results`).
  - It merges the search results into the analysis and formats the merged data.
- **Image agent** (`app/core/agents/image_agent.py`, the live class from line 112 on): renders
  the generation prompt. It then asks the image model for two images with the same prompt and
  returns each as a PNG base64 data URL. It also refines an image with a second, parameterised
  prompt.

Exceptions become a `Result` (`Ok(value)` or `Err(message)`). Each error message is composed
exactly as the source's f-strings compose it, for example
`"Error formatting trend data: " + str(e)`. The Python error texts are those of
Python 3.11, for example `'list' object has no attribute 'get'`. JSON-like values are the
`Json` datatype. The image model client is a class that records the requests it receives. Its
`answer(request, n)` function gives the reply to the n-th request, so two calls may get
different replies.

Modules:
- `Results`: result values, and the first failure in a sequence.
- `JsonValues`: the values, plus `.get`, `[key]`, `[0]` and the error texts.
- `Text`: ASCII `lower`, substring search, `split`, `join` and concatenation, with their round
  trips.
- `Prompts`: templates as text pieces and named slots, the three prompt texts the core
  formats, and the rendering lemmas.
- `DataFormatter`, `TrendAgent`, `FileProcessor` and `ImageAgent`: one module per core file.

Behaviours of the code worth noting:
- An analysis with an empty `market_trends` list does not degrade to an empty search term. The
  dict of a parsed `TrendAnalysis` always has `market_trends`, so the `['']` default never
  applies. Indexing the empty list raises, and the whole analysis fails (`TrendAgent.AnalysisQuery`).
- `format_trend_data` is not idempotent on its own output. The output names its entries
  `primary_elements`, `layout_preferences`, `composition_guidelines` and so on, but the input
  is read at `primary`, `layout` and `composition`. Formatting twice resets all of them to the
  defaults except `background` (`DataFormatter.ReformatResetsDerivedKeys`,
  `DataFormatter.FormatTrendDataNotIdempotent`).
- The formatter fails not only on an input that is not a dict but also when `visual_elements`,
  `composition`, `colors`, `typography` or `logo` holds something other than a dict.
- The search results do not reach the formatted trend data. The formatter drops
  `search_insights`, so a successful analysis returns the parsed trends and audience insights
  with every visual and composition default (`TrendAgent.SearchInsightsDiscarded`).
- A UTF-8 decoding failure of a `.txt` file is not wrapped in a processing error, unlike PDF
  and DOCX failures.
- `TREND_ANALYSIS_PROMPT` already ends with `{format_instructions}`, and `analyze_trends`
  appends `"\n{format_instructions}"`. The parser's format instructions therefore appear twice
  in the prompt (`TrendAgent.AnalysisPrompt`).

## Model

| member | source | states |
|---|---|---|
| DataFormatter.ExtractVisualElements | app/core/utils/data_formatter.py:41-48 | succeeds exactly on a dict whose `visual_elements` is absent or a dict; otherwise the AttributeError text of the offending value; on success exactly the four keys, each carrying `primary`, `secondary`, `background`, `layout` of `visual_elements` or its default |
| DataFormatter.CreateCompositionGuidelines | app/core/utils/data_formatter.py:51-58 | succeeds exactly when `composition` is absent or a dict; exactly the four keys, `layout` defaulting to `"balanced"`, the others to empty containers |
| DataFormatter.FormatTrendData | app/core/utils/data_formatter.py:7-22 | succeeds exactly on the accepted shapes; every failure carries the `Error formatting trend data: ` prefix; on success exactly four keys, trends and audience insights passed through, the other two equal to the helpers' results |
| DataFormatter.SparseInputGetsDefaults | app/core/utils/data_formatter.py:10-19 | a dict with neither `visual_elements` nor `composition` is formatted without error into every visual and composition default |
| DataFormatter.ReformatResetsDerivedKeys | app/core/utils/data_formatter.py:10-19 | formatting a formatted value keeps trends, audience insights and `background`, and resets every other derived entry to its default |
| DataFormatter.FormatTrendDataNotIdempotent | app/core/utils/data_formatter.py:43-48 | a concrete input whose second formatting differs from its first |
| DataFormatter.ParseColors | app/core/utils/data_formatter.py:61-67 | succeeds exactly when `colors` is absent or a dict; exactly `primary`, `secondary`, `accent`, each defaulting to an empty list |
| DataFormatter.ParseTypography | app/core/utils/data_formatter.py:70-76 | succeeds exactly when `typography` is absent or a dict; both fonts default to `""`, and `sizes` becomes `font_sizes` |
| DataFormatter.ParseLogoRequirements | app/core/utils/data_formatter.py:79-85 | succeeds exactly when `logo` is absent or a dict; defaults `top-left`, `medium`, `10%` |
| DataFormatter.ParsedBrandData | app/core/utils/data_formatter.py:28-30 | a string goes through `json.loads`, and any other value is used as it is |
| DataFormatter.FormatBrandGuidelines | app/core/utils/data_formatter.py:25-38 | a string is parsed and any other value used as it is; succeeds exactly when the parse succeeds and the three sections are dicts or absent; a parse error is reported under `Error formatting brand guidelines: `; on success exactly the four keys, equal to the helpers' results, and `brand_voice` carried |
| DataFormatter.BrandDictNeedsNoParsing | app/core/utils/data_formatter.py:28-30 | brand data given as a dict is formatted the same whatever the JSON parser does |
| DataFormatter.EmptyBrandDataGetsDefaults | app/core/utils/data_formatter.py:25-38 | the text of an empty JSON object formats like the empty dict, into every brand default |
| TrendAgent.AnalysisDict | app/core/agents/trend_agent.py:16-26 | the dict of a `TrendAnalysis` has exactly its four fields, `market_trends` holding the trends as strings in order |
| TrendAgent.AnalysisPrompt | app/core/agents/trend_agent.py:106-112 | the rendered prompt is the filled template text followed by the format instructions, a blank line, and the instructions again |
| TrendAgent.SearchQuery | app/core/agents/trend_agent.py:129 | without `market_trends` the query ends in `region + " "`; an empty trend list fails with `list index out of range`; otherwise the query ends with the first trend |
| TrendAgent.AnalysisQuery | app/core/agents/trend_agent.py:126-129 | on the dict of a parsed analysis the query succeeds exactly when there is a trend, and then names the first one |
| TrendAgent.CombinedData | app/core/agents/trend_agent.py:133 | every key of the analysis is kept with its value, and `search_insights` is added with the search results |
| TrendAgent.CategoryPriority | app/core/agents/trend_agent.py:78-92 | a title is filed under market trends exactly when it contains "market", under audience insights exactly when it contains "audience" but not "market", under competitors exactly when it contains only "competitor", and nowhere otherwise |
| TrendAgent.ResultItems | app/core/agents/trend_agent.py:76 | a payload that is not a dict fails with the `.get` AttributeError; missing `results` gives no items; a list gives its items; anything else gets through only when it is an empty string or dict, and then gives no items |
| TrendAgent.Classify | app/core/agents/trend_agent.py:78 | a result can be read exactly when it is a dict whose title, if any, is a string; otherwise the AttributeError of `.get` or of `.lower` |
| TrendAgent.ClassifyByTitle | app/core/agents/trend_agent.py:78-86 | a result without a title is filed nowhere, and one with a string title by its lower-cased title |
| TrendAgent.MarketEntry | app/core/agents/trend_agent.py:79-81 | a market entry has exactly `title` and `summary`, those of the result or `None` |
| TrendAgent.CompetitorEntry | app/core/agents/trend_agent.py:87-91 | a competitor entry has exactly `competitor` and `strategy`, the result's title and summary or `None` |
| TrendAgent.SearchInsights | app/core/agents/trend_agent.py:68-94 | a successful filing has exactly the three bucket keys; a dict without `results` gives three empty buckets; a payload that is not a dict fails with the `.get` AttributeError |
| TrendAgent.CollectAppend | app/core/agents/trend_agent.py:76-92 | the list buckets over two runs of results are those of the first run followed by those of the second, so they keep the order of the results |
| TrendAgent.MergeAppend | app/core/agents/trend_agent.py:82-85 | updating the audience dict with two runs of results updates it with the first, then the second |
| TrendAgent.MarketTrendsMembers | app/core/agents/trend_agent.py:78-81 | an entry is in the market bucket exactly when some market-titled result produced it |
| TrendAgent.BucketsBounded | app/core/agents/trend_agent.py:76-92 | each result lands in at most one list bucket, so the two lists together are never longer than the results |
| TrendAgent.AudienceLastWins | app/core/agents/trend_agent.py:82-85 | the audience dict holds only `insight`, the summary of the last audience-titled result |
| TrendAgent.ProcessSearchResults | app/core/agents/trend_agent.py:68-94 | the loop's buckets, and its failure on the first result it cannot read, are exactly those of `SearchInsights` |
| TrendAgent.SearchTrends | app/core/agents/trend_agent.py:60-66 | a search failure, or a failure filing its reply, is reported under `Error searching trends: `; otherwise the filed buckets |
| TrendAgent.SearchInsightsDiscarded | app/core/agents/trend_agent.py:133-136 | formatting the merged data cannot fail and yields the analysis' trends and audience insights with every visual and composition default, whatever the search found |
| TrendAgent.SearchOutcome | app/core/agents/trend_agent.py:126-136 | the second half fails exactly when there is no trend, the search for the first trend fails, or its reply cannot be filed, keeping the failing step's message under the search prefix where the source adds it; on success the formatted analysis, whatever the search found |
| TrendAgent.SearchAndFormat | app/core/agents/trend_agent.py:126-136 | query, search, merge and format yield exactly the outcome stated by `SearchOutcome` |
| TrendAgent.ParsedAnalysis | app/core/agents/trend_agent.py:106-122 | the language model is sent the rendered analysis prompt; its failure is reported as it is, and its reply goes to the parser |
| TrendAgent.AnalyzeTrends | app/core/agents/trend_agent.py:100-139 | a failure of the language model or the parser, and any failure after it, is reported under `Error analyzing trends: `; otherwise the formatted analysis |
| Text.LowerChars | app/core/agents/trend_agent.py:78 | lower-casing keeps the length, maps each character, and leaves no capital letter |
| Text.ContainsIffOccurs | app/core/agents/trend_agent.py:78 | the substring test is true exactly when the word occurs at some position of the title |
| Prompts.RenderSlotTwice | app/core/agents/trend_agent.py:107 | a template closing with a slot, extended by a line break and the same slot, renders the value twice with a blank line between |
| FileProcessor.LastSegment | app/core/utils/file_processor.py:12 | the last segment has no dot, is a suffix of the name, is preceded by a dot when shorter, and is the whole name when there is no dot |
| FileProcessor.Extension | app/core/utils/file_processor.py:12 | the extension has no dot and no upper-case letter, is no longer than the name, and is the whole name lower-cased when the name has no dot |
| FileProcessor.ExtensionOf | app/core/utils/file_processor.py:12 | the extension of `stem.ext` is `ext` lower-cased, whatever the stem holds |
| FileProcessor.LastSegmentDecides | app/core/utils/file_processor.py:12 | `a.pdf.txt` has the extension `txt` |
| FileProcessor.DocIsNotDocx | app/core/utils/file_processor.py:12 | `x.doc` has the extension `doc` |
| FileProcessor.UpperCaseExtension | app/core/utils/file_processor.py:12 | `Brief.PDF` has the extension `pdf` |
| FileProcessor.PdfText | app/core/utils/file_processor.py:24-36 | succeeds exactly when the reader and every page succeed, with the page texts concatenated in order; no pages give `""`; failures carry `Error processing PDF: ` |
| FileProcessor.FirstFailingPage | app/core/utils/file_processor.py:30-31 | the error reported is that of the first page that fails |
| FileProcessor.ProcessPdf | app/core/utils/file_processor.py:24-36 | the page loop returns exactly `PdfText` of what the reader yields |
| FileProcessor.ProcessDocx | app/core/utils/file_processor.py:39-48 | succeeds exactly when the document can be read, with the paragraph texts joined by line breaks; failures carry `Error processing DOCX: ` and the reader's message |
| FileProcessor.DocxParagraphs | app/core/utils/file_processor.py:44 | no paragraphs give `""`; otherwise the length is that of the paragraphs plus one per separator; splitting at line breaks gives the paragraphs back when none holds one |
| FileProcessor.ProcessFile | app/core/utils/file_processor.py:9-21 | `pdf`, `docx` and `txt` go to their reader, and the UTF-8 decoding result is returned unwrapped; any other extension fails with `Unsupported file type: ` and the extension |
| ImageAgent.ImageModel.constructor | app/core/agents/image_agent.py:122-129 | a new client has received no request |
| ImageAgent.ImageModel.InvokeModel | app/core/agents/image_agent.py:171-190 | the request is recorded after the earlier ones, and the reply is the service's answer to it as the n-th request |
| ImageAgent.DataUrlRoundTrip | app/core/agents/image_agent.py:194 | a text is the data URL of a payload exactly when reading the payload back from it gives that payload |
| ImageAgent.ImageData | app/core/agents/image_agent.py:191 | the first item of a non-empty `images` list; `list index out of range` for an empty one, the KeyError text `'images'` when the key is missing, and the TypeError text for a value that cannot be subscripted |
| ImageAgent.SingleImage | app/core/agents/image_agent.py:168-197 | a single image succeeds exactly when the service answers and its body has a first image, whose payload the data URL carries; a failure of the service or of reading the reply is reported under `Error generating single image: ` with its own message |
| ImageAgent.GenerateSingleImage | app/core/agents/image_agent.py:168-197 | exactly one request, for a 1024x1024 standard image with seed 42, cfgScale 8.0 and 50 steps, and the result stated by `SingleImage` |
| ImageAgent.GenerationPrompt | app/core/agents/image_agent.py:140-155 | the JSON of the trend data, the design plan, the JSON of the brand metadata and `1024x1024` each occur in the rendered prompt |
| Prompts.RenderShowsSlot | app/core/agents/image_agent.py:150-155 | whatever value a slot of a template is given occurs in the rendered text |
| Prompts.GenerationSlotsShow | app/core/agents/image_agent.py:150-155 | each of the four values of the generation template occurs in its rendering |
| ImageAgent.GenerateTwo | app/core/agents/image_agent.py:158-163 | the loop makes one request when the first image fails and otherwise exactly two with the same prompt; it returns the first failure, or the two URLs in order |
| ImageAgent.GenerateImages | app/core/agents/image_agent.py:131-166 | a first failure aborts after one request; otherwise exactly two requests with the same prompt; the two URLs in order, or the second failure, under `Error generating images: ` |
| ImageAgent.RefinementValues | app/core/agents/image_agent.py:213-217 | the template gets exactly the three values, read from `composition`, `colors` and `placement` with `""` as default |
| ImageAgent.RefinementDefaults | app/core/agents/image_agent.py:213-217 | an absent parameter becomes `""`, and a string parameter is used as it is |
| ImageAgent.RefinementPrompt | app/core/agents/image_agent.py:204-217 | the composition, colour and placement values each occur in the rendered refinement prompt |
| Prompts.RefinementSlotsShow | app/core/agents/image_agent.py:213-217 | each of the three values of the refinement template occurs in its rendering |
| ImageAgent.RefineImage | app/core/agents/image_agent.py:199-223 | parameters that are not a dict fail without any request; otherwise exactly one request with the refinement prompt, and its result under `Error refining image: ` |

## Left out

- The PDF reader (PyPDF2), the DOCX reader (python-docx) and UTF-8 decoding are foreign
  libraries. They are parameters: the page texts, the paragraph texts, and the decoded text or
  error.
- `json.loads`, `json.dumps` and `str()` of non-string values are parameters. The model does
  not fix their exact text.
- The language model chain, the output parser and its format instructions, the web search
  client and the Bedrock image service are parameters. The search reply is taken as already
  awaited.
- `async`/`await`, closing the `BytesIO` buffers, the `print` calls, and the reading of the
  uploaded file are not modelled.
- An upload without a file name (`filename` is `None`) is not modelled. The file name is always
  a string.
- Text.Lower: lower-cases ASCII letters only. Python's `str.lower` also maps other Unicode
  letters.
- Floating-point values: JSON numbers are integers. The one float of the image request,
  `cfgScale`, is a `real`.
- Dict key order is not modelled. Dicts are maps.
- The set-up of the LangChain agent and its tools in `TrendAgent.__init__` is not modelled,
  because nothing in the core calls the agent. Neither is the unused `TREND_REFINEMENT_PROMPT`.
- The commented-out first version of the image agent (lines 1-110 of `image_agent.py`) is not
  modelled. It is not code.
- The API routes, the configuration and the schemas are not part of this model.
