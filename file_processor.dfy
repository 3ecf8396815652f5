/** FileProcessor (app/core/utils/file_processor.py): turns an uploaded file into text,
    choosing a reader by the file name's extension. The PDF, DOCX and UTF-8 readers are
    libraries, passed in as functions: the PDF reader yields the page list, each page's
    extracted text (or the error extracting it), and the DOCX reader the paragraph texts. */
module FileProcessor {
  import opened Results
  import opened Text

  newtype byte = x: int | 0 <= x < 256

  type Bytes = seq<byte>

  datatype Libraries = Libraries(
    pdfPages: Bytes -> Result<seq<Result<string>>>,   // PdfReader(BytesIO(content)).pages, each page.extract_text()
    docxParagraphs: Bytes -> Result<seq<string>>,       // the texts of docx.Document(BytesIO(content)).paragraphs
    decodeUtf8: Bytes -> Result<string>)                 // content.decode("utf-8")

  const PdfError := "Error processing PDF: "
  const DocxError := "Error processing DOCX: "
  const UnsupportedType := "Unsupported file type: "

  // ---------------------------------------------------------------------------------------
  // The extension

  /** `filename.split(".")[-1]`: the part of the name after its last dot, or the whole name
      when it has none. */
  function LastSegment(filename: string): (seg: string)
    ensures '.' !in seg
    ensures |seg| <= |filename| && seg == filename[|filename| - |seg|..]
    ensures |seg| < |filename| ==> filename[|filename| - |seg| - 1] == '.'
    ensures '.' !in filename ==> seg == filename
  {
    var parts := Split(filename, '.');
    SplitPiecesFree(filename, '.');
    SplitLastPiece(filename, '.');
    parts[|parts| - 1]
  }

  /** `file.filename.split(".")[-1].lower()`: the part after the last dot, lower-cased, so it
      has no dot and no upper-case letter, and is no longer than the name. */
  function Extension(filename: string): (ext: string)
    ensures '.' !in ext
    ensures forall k :: 0 <= k < |ext| ==> !('A' <= ext[k] <= 'Z')
    ensures |ext| <= |filename|
    ensures '.' !in filename ==> ext == Lower(filename)
  {
    var seg := LastSegment(filename);
    LowerChars(seg);
    assert forall k :: 0 <= k < |seg| ==> Lower(seg)[k] == LowerChar(seg[k]) != '.';
    Lower(seg)
  }

  /** The extension of `stem.ext` is `ext` lower-cased, whatever the stem holds (dots
      included), as long as `ext` has no dot. */
  lemma {:induction false} ExtensionOf(stem: string, ext: string)
    requires '.' !in ext
    ensures Extension(stem + "." + ext) == Lower(ext)
  {
    var withDot := stem + ".";
    SplitSeparatorEnd(stem, '.');
    SplitAppendPiece(withDot, ext, '.');
    var p := Split(stem, '.') + [[]];
    assert p[|p| - 1] + ext == ext;
  }

  /** The last segment decides: `a.pdf.txt` is a text file. */
  lemma LastSegmentDecides()
    ensures Extension("a.pdf.txt") == "txt"
  {
    ExtensionOf("a.pdf", "txt");
    assert "a.pdf" + "." + "txt" == "a.pdf.txt";
  }

  /** `x.doc` has the extension `doc`, which no reader accepts. */
  lemma DocIsNotDocx()
    ensures Extension("x.doc") == "doc"
  {
    ExtensionOf("x", "doc");
    assert "x" + "." + "doc" == "x.doc";
  }

  /** Letter case does not matter. */
  lemma UpperCaseExtension()
    ensures Extension("Brief.PDF") == "pdf"
  {
    ExtensionOf("Brief", "PDF");
    assert "Brief" + "." + "PDF" == "Brief.PDF";
  }

  // ---------------------------------------------------------------------------------------
  // The readers

  /** What `_process_pdf` returns for what the PDF library yields: the page texts one after
      the other, in page order, with nothing between them; any failure, of the reader or of
      one page, replaces the whole text with an error. */
  function PdfText(pages: Result<seq<Result<string>>>): (r: Result<string>)
    ensures r.Ok? <==> pages.Ok? && AllOk(pages.value)
    ensures r.Ok? ==> r.value == Concat(Values(pages.value))
    ensures pages == Ok([]) ==> r == Ok("")
    ensures pages.Err? ==> r == Err(PdfError + pages.message)
  {
    if pages.Err? then Err(PdfError + pages.message)
    else
      NoFailureAllOk(pages.value);
      match FirstFailure(pages.value)
      case Some(e) => Err(PdfError + e)
      case None => Ok(Concat(Values(pages.value)))
  }

  lemma {:induction false} NoFailureAllOk(rs: seq<Result<string>>)
    ensures FirstFailure(rs) == None <==> AllOk(rs)
  {
    if rs != [] {
      NoFailureAllOk(rs[1..]);
      if AllOk(rs) {
        assert forall k :: 0 <= k < |rs[1..]| ==> rs[1..][k] == rs[k + 1];
      }
      if AllOk(rs[1..]) && rs[0].Ok? {
        assert forall k :: 1 <= k < |rs| ==> rs[k] == rs[1..][k - 1];
      }
    }
  }

  /** A page that fails stops the reading with that page's error: the error reported is the
      one of the first failing page. */
  lemma FirstFailingPage(pages: seq<Result<string>>, i: nat)
    requires i < |pages| && pages[i].Err?
    requires forall k :: 0 <= k < i ==> pages[k].Ok?
    ensures PdfText(Ok(pages)) == Err(PdfError + pages[i].message)
  {
    FirstFailureAt(pages, i);
  }

  /** `_process_pdf`: `text += page.extract_text()` for each page in turn. */
  method ProcessPdf(pdfPages: Bytes -> Result<seq<Result<string>>>, content: Bytes) returns (r: Result<string>)
    ensures r == PdfText(pdfPages(content))
  {
    var reader := pdfPages(content);
    if reader.Err? {
      return Err(PdfError + reader.message);
    }
    var pages := reader.value;
    var text := "";
    for i := 0 to |pages|
      invariant forall k :: 0 <= k < i ==> pages[k].Ok?
      invariant text == Concat(Values(pages[..i]))
    {
      if pages[i].Err? {
        FirstFailingPage(pages, i);
        return Err(PdfError + pages[i].message);
      }
      assert pages[..i + 1][..i] == pages[..i];
      text := text + pages[i].value;
    }
    assert pages[..|pages|] == pages;
    r := Ok(text);
  }

  /** `_process_docx`: the paragraph texts joined by line breaks. */
  function ProcessDocx(docxParagraphs: Bytes -> Result<seq<string>>, content: Bytes): (r: Result<string>)
    ensures r.Ok? <==> docxParagraphs(content).Ok?
    ensures r.Err? ==> r.message == DocxError + docxParagraphs(content).message
    ensures r.Ok? ==> r.value == Join(docxParagraphs(content).value, '\n')
  {
    var paragraphs := docxParagraphs(content);
    if paragraphs.Err? then Err(DocxError + paragraphs.message) else Ok(Join(paragraphs.value, '\n'))
  }

  /** The text of a document with k >= 1 paragraphs has k - 1 line breaks added to the
      paragraphs, that of an empty document is empty, and when no paragraph holds a line
      break, splitting the text at line breaks gives the paragraphs back. */
  lemma DocxParagraphs(docxParagraphs: Bytes -> Result<seq<string>>, content: Bytes)
    requires docxParagraphs(content).Ok?
    ensures var paragraphs := docxParagraphs(content).value;
      var text := ProcessDocx(docxParagraphs, content).value;
      && (paragraphs == [] ==> text == "")
      && (paragraphs != [] ==> |text| == TotalLength(paragraphs) + |paragraphs| - 1)
      && (paragraphs != [] && (forall k :: 0 <= k < |paragraphs| ==> '\n' !in paragraphs[k]) ==>
            Split(text, '\n') == paragraphs)
  {
    var paragraphs := docxParagraphs(content).value;
    if paragraphs != [] {
      JoinLength(paragraphs, '\n');
      if forall k :: 0 <= k < |paragraphs| ==> '\n' !in paragraphs[k] {
        SplitJoin(paragraphs, '\n');
      }
    }
  }

  // ---------------------------------------------------------------------------------------
  // Dispatch

  /** `process_file`: read by extension, `pdf`, `docx` or `txt`, or reject the file. A decoding
      error of a text file is not wrapped. */
  method ProcessFile(libraries: Libraries, filename: string, content: Bytes) returns (r: Result<string>)
    ensures var ext := Extension(filename);
      && (ext == "pdf" ==> r == PdfText(libraries.pdfPages(content)))
      && (ext == "docx" ==> r == ProcessDocx(libraries.docxParagraphs, content))
      && (ext == "txt" ==> r == libraries.decodeUtf8(content))
      && (ext != "pdf" && ext != "docx" && ext != "txt" ==> r == Err(UnsupportedType + ext))
  {
    var ext := Extension(filename);
    if ext == "pdf" {
      r := ProcessPdf(libraries.pdfPages, content);
    } else if ext == "docx" {
      r := ProcessDocx(libraries.docxParagraphs, content);
    } else if ext == "txt" {
      r := libraries.decodeUtf8(content);
    } else {
      r := Err(UnsupportedType + ext);
    }
  }
}
