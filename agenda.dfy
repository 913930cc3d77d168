/** Agenda files: the MIME dispatch of `read_file` and the loop that reads at
    most ten uploaded files and joins their texts. The document libraries are
    foreign code; what each one makes of a file's bytes is an input. */
module Agenda {
  import opened Foreign
  import opened Text

  /** What each foreign library called by `read_file` makes of a file's bytes;
      each of them may raise. */
  datatype Readings = Readings(
    docxText: Outcome<string>,          // mammoth.convert_to_text(...).value
    pdfPages: Outcome<seq<string>>,     // extract_text() of each page of PdfReader(...)
    utf8Text: Outcome<string>,          // bytes.decode("utf-8")
    sheetText: Outcome<string>,         // pandas.read_excel(...).to_string(index=False)
    ocrText: Outcome<string>)           // pytesseract.image_to_string(..., lang="jpn")

  /** An uploaded file: its name, the MIME type the browser declared, and its
      bytes as the libraries read them. */
  datatype UploadedFile = UploadedFile(name: string, mimeType: string, readings: Readings)

  /** The branches of `read_file`, in the order they are tested. */
  datatype Category = Docx | Pdf | PlainText | Xlsx | Image | Unsupported

  const DocxType := "application/vnd.openxmlformats-officedocument.wordprocessingml.document"
  const PdfType := "application/pdf"
  const PlainTextType := "text/plain"
  const XlsxType := "application/vnd.openxmlformats-officedocument.spreadsheetml.sheet"

  /** The fixed text returned for any other type. */
  const UnsupportedNotice := "(このファイル形式は現在サポートされていません)"

  /** The list each branch tests the declared type against. */
  function Group(c: Category): seq<string>
  {
    match c
    case Docx => [DocxType]
    case Pdf => [PdfType]
    case PlainText => [PlainTextType]
    case Xlsx => [XlsxType]
    case Image => ["image/png", "image/jpeg", "image/jpg", "image/gif"]
    case Unsupported => []
  }

  /** The if/elif chain on `file.type`. The lists are disjoint, so a type is
      listed in the group of its category and in no other one. */
  function Classify(mimeType: string): (c: Category)
    ensures forall g: Category :: g != Unsupported ==> (mimeType in Group(g) <==> g == c)
  {
    if mimeType in Group(Docx) then Docx
    else if mimeType in Group(Pdf) then Pdf
    else if mimeType in Group(PlainText) then PlainText
    else if mimeType in Group(Xlsx) then Xlsx
    else if mimeType in Group(Image) then Image
    else Unsupported
  }

  /** The pages with text, in page order. */
  function NonEmptyPages(pages: seq<string>): (r: seq<string>)
    ensures |r| <= |pages|
    ensures forall k :: 0 <= k < |r| ==> r[k] != "" && r[k] in pages
    ensures |pages| == 1 ==> r == (if pages[0] == "" then [] else pages)
    ensures (forall k :: 0 <= k < |pages| ==> pages[k] != "") ==> r == pages
  {
    if pages == [] then []
    else
      var init := NonEmptyPages(pages[..|pages| - 1]);
      if pages[|pages| - 1] == "" then init else init + [pages[|pages| - 1]]
  }

  /** The PDF branch: non-empty page texts joined by a newline. */
  function PdfText(pages: seq<string>): string
  {
    Join(NonEmptyPages(pages), "\n")
  }

  /** `read_file(file)`: only the declared type selects the branch; a raised
      exception is passed on unchanged. */
  function ReadFile(f: UploadedFile): (r: Outcome<string>)
    ensures Classify(f.mimeType) == Unsupported ==> r == Returned(UnsupportedNotice)
    ensures r.Raised? ==> Classify(f.mimeType) != Unsupported
    ensures Classify(f.mimeType) == Docx ==> r == f.readings.docxText
    ensures Classify(f.mimeType) == Pdf && f.readings.pdfPages.Returned? ==>
      r == Returned(PdfText(f.readings.pdfPages.value))
    ensures Classify(f.mimeType) == Pdf && f.readings.pdfPages.Raised? ==>
      r == Raised(f.readings.pdfPages.exception)
    ensures Classify(f.mimeType) == PlainText ==> r == f.readings.utf8Text
    ensures Classify(f.mimeType) == Xlsx ==> r == f.readings.sheetText
    ensures Classify(f.mimeType) == Image ==> r == f.readings.ocrText
  {
    match Classify(f.mimeType)
    case Docx => f.readings.docxText
    case Pdf =>
      (match f.readings.pdfPages
       case Raised(e) => Raised(e)
       case Returned(pages) => Returned(PdfText(pages)))
    case PlainText => f.readings.utf8Text
    case Xlsx => f.readings.sheetText
    case Image => f.readings.ocrText
    case Unsupported => Returned(UnsupportedNotice)
  }

  lemma {:induction false} NonEmptyPagesConcat(a: seq<string>, b: seq<string>)
    ensures NonEmptyPages(a + b) == NonEmptyPages(a) + NonEmptyPages(b)
  {
    if b != [] {
      var b' := b[..|b| - 1];
      assert (a + b)[..|a + b| - 1] == a + b';
      NonEmptyPagesConcat(a, b');
    } else {
      assert a + b == a;
    }
  }

  /** An empty page contributes nothing to the PDF text, not even a separator. */
  lemma EmptyPageInvisible(a: seq<string>, b: seq<string>)
    ensures PdfText(a + [""] + b) == PdfText(a + b)
  {
    NonEmptyPagesConcat(a + [""], b);
    NonEmptyPagesConcat(a, [""]);
    NonEmptyPagesConcat(a, b);
  }

  /** A PDF whose pages all have text reads as those texts, newline-separated. */
  lemma PdfTextAllPages(pages: seq<string>)
    requires forall k :: 0 <= k < |pages| ==> pages[k] != ""
    ensures PdfText(pages) == Join(pages, "\n")
  {
  }

  /** A PDF without any page text reads as the empty string. */
  lemma {:induction false} PdfTextBlank(pages: seq<string>)
    requires forall k :: 0 <= k < |pages| ==> pages[k] == ""
    ensures PdfText(pages) == ""
  {
    if pages != [] {
      PdfTextBlank(pages[..|pages| - 1]);
    }
  }

  /** Dispatch never looks at the file name. */
  lemma ReadFileIgnoresName(f: UploadedFile, name: string)
    ensures ReadFile(f.(name := name)) == ReadFile(f)
  {
  }

  /** Word `.doc`, Excel `.xls` and PowerPoint `.ppt`/`.pptx` files have no branch of their own. */
  lemma OfficeTypesUnsupported(f: UploadedFile)
    requires f.mimeType in ["application/msword", "application/vnd.ms-excel", "application/vnd.ms-powerpoint",
                            "application/vnd.openxmlformats-officedocument.presentationml.presentation"]
    ensures ReadFile(f) == Returned(UnsupportedNotice)
  {
  }

  // ---------------------------------------------------------------------------
  // Aggregation of the agenda files

  /** The per-file extraction the loop calls; the script's is `ReadFile`. */
  type Reader = UploadedFile -> Outcome<string>

  /** Only this many of the uploaded agenda files are read. */
  const MaxAgendaFiles := 10

  /** The separator between two agenda texts: one blank line. */
  const AgendaSeparator := "\n\n"

  /** `agenda_files[:10]` */
  function Capped(files: seq<UploadedFile>): (fs: seq<UploadedFile>)
    ensures |fs| <= MaxAgendaFiles && |fs| <= |files| && fs == files[..|fs|]
    ensures |files| <= MaxAgendaFiles ==> fs == files
  {
    if |files| <= MaxAgendaFiles then files else files[..MaxAgendaFiles]
  }

  /** The slice holds exactly min(n, 10) files. */
  lemma CappedLength(files: seq<UploadedFile>)
    ensures |Capped(files)| == if |files| <= MaxAgendaFiles then |files| else MaxAgendaFiles
  {
  }

  /** Index of the first file whose extraction raises, or |fs| if none does. */
  function FirstFailure(read: Reader, fs: seq<UploadedFile>): (k: nat)
    ensures k <= |fs|
    ensures forall i :: 0 <= i < k ==> read(fs[i]).Returned?
    ensures k < |fs| ==> read(fs[k]).Raised?
  {
    if fs == [] then 0
    else if read(fs[0]).Raised? then 0
    else 1 + FirstFailure(read, fs[1..])
  }

  /** The first failure is the one after a run of files that all return. */
  lemma FirstFailureAt(read: Reader, fs: seq<UploadedFile>, i: nat)
    requires i < |fs| && read(fs[i]).Raised?
    requires forall j :: 0 <= j < i ==> read(fs[j]).Returned?
    ensures FirstFailure(read, fs) == i
  {
  }

  predicate AllRead(read: Reader, fs: seq<UploadedFile>)
  {
    forall i :: 0 <= i < |fs| ==> read(fs[i]).Returned?
  }

  /** The extracted texts, in upload order. */
  function Texts(read: Reader, fs: seq<UploadedFile>): (ts: seq<string>)
    requires AllRead(read, fs)
    ensures |ts| == |fs|
    ensures forall i :: 0 <= i < |fs| ==> ts[i] == read(fs[i]).value
  {
    if fs == [] then [] else Texts(read, fs[..|fs| - 1]) + [read(fs[|fs| - 1]).value]
  }

  /** `combined_agenda`, or the exception of the first of the ten files that raises. */
  function CombinedAgenda(read: Reader, files: seq<UploadedFile>): (r: Outcome<string>)
    ensures r.Returned? <==> AllRead(read, Capped(files))
    ensures files == [] ==> r == Returned("")
    ensures r.Raised? ==> exists k :: 0 <= k < |Capped(files)| && r == read(files[k]) &&
                                      AllRead(read, files[..k])
  {
    var fs := Capped(files);
    var k := FirstFailure(read, fs);
    if k < |fs| then
      assert files[..k] == fs[..k];
      Raised(read(fs[k]).exception)
    else Returned(Join(Texts(read, fs), AgendaSeparator))
  }

  /** How many files are handed to `read_file`: all of the first ten, or up to
      and including the first one that raises. */
  function ReadCount(read: Reader, files: seq<UploadedFile>): (n: nat)
    ensures n <= |Capped(files)|
    ensures CombinedAgenda(read, files).Returned? ==> n == |Capped(files)|
    ensures CombinedAgenda(read, files).Raised? ==>
      n > 0 && CombinedAgenda(read, files) == read(files[n - 1]) && AllRead(read, Capped(files)[..n - 1])
  {
    var fs := Capped(files);
    var k := FirstFailure(read, fs);
    if k < |fs| then k + 1 else |fs|
  }

  /** The progress notice shown just before a file is read (its 1-based position and name). */
  datatype Notice = Loaded(position: nat, fileName: string)

  /** The notices of one run, one per file handed to `read_file`. */
  function AgendaNotices(read: Reader, files: seq<UploadedFile>): seq<Notice>
  {
    var fs, n := Capped(files), ReadCount(read, files);
    seq(n, i requires 0 <= i < n => Loaded(i + 1, fs[i].name))
  }

  /** Reading one more file that returns extends the texts by its text. */
  lemma TextsSnoc(read: Reader, fs: seq<UploadedFile>, f: UploadedFile)
    requires AllRead(read, fs) && read(f).Returned?
    ensures AllRead(read, fs + [f])
    ensures Texts(read, fs + [f]) == Texts(read, fs) + [read(f).value]
  {
    assert forall i :: 0 <= i < |fs| ==> (fs + [f])[i] == fs[i];
  }

  /** The notices of a run, written out position by position. */
  lemma AgendaNoticesAt(read: Reader, files: seq<UploadedFile>, notices: seq<Notice>)
    requires |notices| == ReadCount(read, files)
    requires forall j :: 0 <= j < |notices| ==> notices[j] == Loaded(j + 1, Capped(files)[j].name)
    ensures notices == AgendaNotices(read, files)
  {
  }

  /** The loop stops at the first file that raises, with that file's exception,
      after announcing it. */
  lemma StopsAtFailure(read: Reader, files: seq<UploadedFile>, i: nat, notices: seq<Notice>)
    requires i < |Capped(files)| && AllRead(read, Capped(files)[..i]) && read(Capped(files)[i]).Raised?
    requires |notices| == i + 1
    requires forall j :: 0 <= j <= i ==> notices[j] == Loaded(j + 1, Capped(files)[j].name)
    ensures CombinedAgenda(read, files) == Raised(read(Capped(files)[i]).exception)
    ensures notices == AgendaNotices(read, files)
  {
    var fs := Capped(files);
    assert forall j :: 0 <= j < i ==> fs[..i][j] == fs[j];
    FirstFailureAt(read, fs, i);
    AgendaNoticesAt(read, files, notices);
  }

  /** The loop that reads every capped file joins their texts. */
  lemma FinishesWithJoin(read: Reader, files: seq<UploadedFile>, texts: seq<string>, notices: seq<Notice>)
    requires AllRead(read, Capped(files)) && texts == Texts(read, Capped(files))
    requires |notices| == |Capped(files)|
    requires forall j :: 0 <= j < |notices| ==> notices[j] == Loaded(j + 1, Capped(files)[j].name)
    ensures CombinedAgenda(read, files) == Returned(Join(texts, AgendaSeparator))
    ensures notices == AgendaNotices(read, files)
  {
    CombinedAgendaJoins(read, files);
    AgendaNoticesAt(read, files, notices);
  }

  /** The aggregation loop: reads the first ten files in order, announcing each
      one before reading it, and joins their texts with a blank line. */
  method AggregateAgenda(read: Reader, agendaFiles: seq<UploadedFile>)
    returns (combined: Outcome<string>, notices: seq<Notice>)
    ensures combined == CombinedAgenda(read, agendaFiles)
    ensures notices == AgendaNotices(read, agendaFiles)
  {
    var agendaTexts: seq<string> := [];
    notices := [];
    var capped := Capped(agendaFiles);
    if |agendaFiles| > 0 {
      var i := 0;
      while i < |capped|
        invariant 0 <= i <= |capped|
        invariant |notices| == i
        invariant AllRead(read, capped[..i]) && agendaTexts == Texts(read, capped[..i])
        invariant forall j :: 0 <= j < i ==> notices[j] == Loaded(j + 1, capped[j].name)
      {
        notices := notices + [Loaded(i + 1, capped[i].name)];
        var text := read(capped[i]);
        if text.Raised? {
          combined := Raised(text.exception);
          StopsAtFailure(read, agendaFiles, i, notices);
          return;
        }
        assert capped[..i + 1] == capped[..i] + [capped[i]];
        TextsSnoc(read, capped[..i], capped[i]);
        agendaTexts := agendaTexts + [text.value];
        i := i + 1;
      }
      assert capped[..i] == capped;
    }
    combined := Returned(Join(agendaTexts, AgendaSeparator));
    FinishesWithJoin(read, agendaFiles, agendaTexts, notices);
  }

  /** When no file raises, `combined_agenda` is the join of all extracted texts. */
  lemma CombinedAgendaJoins(read: Reader, files: seq<UploadedFile>)
    requires AllRead(read, Capped(files))
    ensures CombinedAgenda(read, files) == Returned(Join(Texts(read, Capped(files)), AgendaSeparator))
  {
  }

  /** Each of the first ten texts appears verbatim in `combined_agenda`, in
      upload order, neighbours separated by exactly one blank line. */
  lemma AgendaTextsInOrder(read: Reader, files: seq<UploadedFile>, i: nat)
    requires CombinedAgenda(read, files).Returned?
    requires i < |Capped(files)|
    ensures var ts, c := Texts(read, Capped(files)), CombinedAgenda(read, files).value;
      OccursAt(c, read(files[i]).value, PartOffset(ts, AgendaSeparator, i)) &&
      (i + 1 < |ts| ==> OccursAt(c, AgendaSeparator, PartOffset(ts, AgendaSeparator, i) + |ts[i]|))
  {
    var fs := Capped(files);
    CombinedAgendaJoins(read, files);
    var ts := Texts(read, fs);
    assert ts[i] == read(files[i]).value by {
      assert fs[i] == files[i];
    }
    JoinPlaces(ts, AgendaSeparator, i);
    if i + 1 < |ts| {
      JoinSeparates(ts, AgendaSeparator, i);
    }
  }

  /** With a single agenda file, `combined_agenda` is that file's text, with no separator. */
  lemma SingleAgendaFile(read: Reader, f: UploadedFile)
    ensures CombinedAgenda(read, [f]) == read(f)
  {
    if read(f).Returned? {
      assert AllRead(read, [f]);
      assert [f][..0] == [];
    }
  }

  /** Files after the tenth change nothing: neither the result nor which files are read. */
  lemma IgnoresFilesBeyondTenth(read: Reader, files: seq<UploadedFile>, extra: seq<UploadedFile>)
    requires |files| >= MaxAgendaFiles
    ensures Capped(files + extra) == Capped(files)
    ensures CombinedAgenda(read, files + extra) == CombinedAgenda(read, files)
    ensures AgendaNotices(read, files + extra) == AgendaNotices(read, files)
  {
    assert (files + extra)[..MaxAgendaFiles] == files[..MaxAgendaFiles];
    assert Capped(files + extra) == Capped(files);
    assert forall i :: 0 <= i < MaxAgendaFiles ==> (files + extra)[i] == files[i];
  }
}
