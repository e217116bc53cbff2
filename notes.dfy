/** The tutor's notes context: the text of an uploaded PDF or plain-text file,
    read in the run block before the prompt is built. Line numbers refer to
    `streamlit_personal_assistant.py`. */
module Notes {
  import opened Wrappers

  /** What `page.extract_text()` gave for one page, or the message of the
      exception it raised. */
  datatype PageText = PageText(text: string) | PageError(reason: string)

  /** An uploaded notes file. A PDF either opens (`PdfReader`) and lists its
      pages, or fails with a message; any other file is decoded as UTF-8,
      which either gives its text or fails with a message. */
  datatype NotesFile =
    | PdfUpload(document: Result<seq<PageText>, string>)
    | TextUpload(decoded: Result<string, string>)

  const LibraryMissing := "PyPDF2 module not installed. Please install it to enable PDF file uploads."

  function ReadError(reason: string): string {
    "Error reading notes file: " + reason
  }

  /** The page texts concatenated in order, each followed by a line break. */
  function PagesText(texts: seq<string>): string
    decreases |texts|
  {
    if texts == [] then "" else PagesText(texts[..|texts| - 1]) + texts[|texts| - 1] + "\n"
  }

  /** Reading pages one after another: the text of a list of pages is that of
      its first part followed by that of the rest. */
  lemma {:induction false} PagesTextAppend(a: seq<string>, b: seq<string>)
    ensures PagesText(a + b) == PagesText(a) + PagesText(b)
    decreases |b|
  {
    if b == [] {
      assert a + b == a;
    } else {
      var n := |b| - 1;
      assert (a + b)[..|a + b| - 1] == a + b[..n];
      PagesTextAppend(a, b[..n]);
    }
  }

  lemma PagesTextSingle(t: string)
    ensures PagesText([t]) == t + "\n"
  {
    assert [t][..0] == [];
  }

  /** Every page keeps its place: the text of a page between others comes
      right after the text of the pages before it, is followed by a line
      break, and is followed by the text of the pages after it. */
  lemma PageInPlace(before: seq<string>, t: string, after: seq<string>)
    ensures PagesText(before + [t] + after) == PagesText(before) + t + "\n" + PagesText(after)
  {
    PagesTextAppend(before + [t], after);
    PagesTextAppend(before, [t]);
    PagesTextSingle(t);
    var pa, pb := PagesText(before), PagesText(after);
    assert PagesText(before + [t] + after) == (pa + (t + "\n")) + pb;
    assert (pa + (t + "\n")) + pb == pa + t + "\n" + pb;
  }

  /** How many pages are read before the first one whose extraction fails. */
  function ReadableCount(pages: seq<PageText>): (n: nat)
    ensures n <= |pages|
    ensures forall k :: 0 <= k < n ==> pages[k].PageText?
    ensures n < |pages| ==> pages[n].PageError?
    decreases |pages|
  {
    if pages == [] || pages[0].PageError? then 0 else 1 + ReadableCount(pages[1..])
  }

  function Texts(pages: seq<PageText>): seq<string>
    requires forall k :: 0 <= k < |pages| ==> pages[k].PageText?
  {
    seq(|pages|, k requires 0 <= k < |pages| => pages[k].text)
  }

  /** The loop over `pdf_reader.pages`. An exception inside it ends the loop
      and is reported, and the text gathered so far stays in the context. */
  method AccumulatePages(pages: seq<PageText>) returns (context: string, error: Option<string>)
    ensures context == PagesText(Texts(pages[..ReadableCount(pages)]))
    ensures error.None? <==> ReadableCount(pages) == |pages|
    ensures error.Some? ==> error == Some(ReadError(pages[ReadableCount(pages)].reason))
  {
    context := "";
    var i := 0;
    while i < |pages|
      invariant 0 <= i <= |pages|
      invariant forall k :: 0 <= k < i ==> pages[k].PageText?
      invariant context == PagesText(Texts(pages[..i]))
    {
      match pages[i]
      case PageError(reason) =>
        assert ReadableCount(pages) == i;
        return context, Some(ReadError(reason));
      case PageText(t) =>
        assert Texts(pages[..i + 1]) == Texts(pages[..i]) + [t];
        PagesTextAppend(Texts(pages[..i]), [t]);
        assert PagesText([t]) == PagesText([]) + t + "\n";
        context := context + t + "\n";
      i := i + 1;
    }
    assert pages[..i] == pages;
    return context, None;
  }

  /** The notes context the tutor receives. */
  function NotesContext(file: Option<NotesFile>, pdfLibrary: bool): string {
    match file
    case None => ""
    case Some(f) =>
      if !pdfLibrary then ""
      else match f
        case PdfUpload(Success(pages)) => PagesText(Texts(pages[..ReadableCount(pages)]))
        case PdfUpload(Failure(_)) => ""
        case TextUpload(Success(text)) => text
        case TextUpload(Failure(_)) => ""
  }

  /** When reading the notes goes wrong, in terms of the upload: PyPDF2 is
      missing, the file cannot be opened or decoded, or some page's text
      cannot be extracted. */
  predicate NotesFailed(file: Option<NotesFile>, pdfLibrary: bool) {
    match file
    case None => false
    case Some(f) =>
      !pdfLibrary ||
      match f
      case PdfUpload(Success(pages)) => exists k :: 0 <= k < |pages| && pages[k].PageError?
      case PdfUpload(Failure(_)) => true
      case TextUpload(Success(_)) => false
      case TextUpload(Failure(_)) => true
  }

  /** The message the run block reports while reading the notes, if any. */
  function NotesError(file: Option<NotesFile>, pdfLibrary: bool): (e: Option<string>)
    ensures e.Some? <==> NotesFailed(file, pdfLibrary)
    ensures file.Some? && !pdfLibrary ==> e == Some(LibraryMissing)
  {
    match file
    case None => None
    case Some(f) =>
      if !pdfLibrary then Some(LibraryMissing)
      else match f
        case PdfUpload(Success(pages)) =>
          if ReadableCount(pages) < |pages| then Some(ReadError(pages[ReadableCount(pages)].reason)) else None
        case PdfUpload(Failure(reason)) => Some(ReadError(reason))
        case TextUpload(Success(_)) => None
        case TextUpload(Failure(reason)) => Some(ReadError(reason))
  }

  /** Lines 229-246: the import of PyPDF2 is tried for every upload, PDF or
      not; then the file is read by its type. Every failure is reported and
      the request goes on. */
  method ExtractNotes(file: Option<NotesFile>, pdfLibrary: bool) returns (context: string, error: Option<string>)
    ensures context == NotesContext(file, pdfLibrary)
    ensures error == NotesError(file, pdfLibrary)
  {
    context := "";
    error := None;
    if file.Some? {
      if !pdfLibrary {
        error := Some(LibraryMissing);
        context := "";
      } else {
        match file.value
        case PdfUpload(Success(pages)) =>
          context, error := AccumulatePages(pages);
        case PdfUpload(Failure(reason)) =>
          error := Some(ReadError(reason));
        case TextUpload(Success(text)) =>
          context := text;
        case TextUpload(Failure(reason)) =>
          error := Some(ReadError(reason));
      }
    }
  }

  /** A readable PDF gives every page's text in order; a decoded text file
      gives its text exactly ("hello\nworld" stays "hello\nworld"). */
  lemma ReadableNotes(pages: seq<PageText>, text: string)
    requires forall k :: 0 <= k < |pages| ==> pages[k].PageText?
    ensures NotesContext(Some(PdfUpload(Success(pages))), true) == PagesText(Texts(pages))
    ensures !NotesFailed(Some(PdfUpload(Success(pages))), true)
    ensures NotesContext(Some(TextUpload(Success(text))), true) == text
  {
    assert pages[..ReadableCount(pages)] == pages;
  }

  /** Without PyPDF2, or when the file cannot be opened or decoded, the
      context is empty and an error is reported. */
  lemma UnreadableNotes(file: NotesFile, pdfLibrary: bool)
    requires !pdfLibrary || (file.PdfUpload? && file.document.Failure?) || (file.TextUpload? && file.decoded.Failure?)
    ensures NotesContext(Some(file), pdfLibrary) == ""
    ensures NotesFailed(Some(file), pdfLibrary)
  {
  }
}
