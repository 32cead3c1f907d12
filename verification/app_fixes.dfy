/**
 Two defects of the controller as written, each shown on a concrete run,
 and a corrected controller with the property the code evidently intends
 proved about it.

 1. "Reset Chat" clears `st.session_state.chain` but not `bot.RAG_CHAIN`,
    which is what actually answers. After a reset and a new upload, the
    questions are answered by the chain loaded from the deleted index.
 2. An exception while reading the file or indexing it ends the script run
    with `processing` still set, and every later upload is skipped until a
    reset.
 */
module AppFixes {
  import opened Optional
  import opened FileParser
  import opened Bot
  import opened App
  import opened Text

  /**
   The chain that answers questions agrees with the persisted index: a
   ready session has an index, and a built chain was loaded from the index
   that is on disk now.
   */
  predicate Coherent(a: AppState)
  {
    && (a.session.vectorStoreReady ==> a.index.Some?)
    && (a.ragChain.Some? ==> a.session.vectorStoreReady && a.index == Some(a.ragChain.value.indexWrite))
  }

  /** Nothing is half-processed between runs. */
  predicate Idle(a: AppState)
  {
    !a.session.processing
  }

  // ---------------------------------------------------------------------
  // Corrected transitions

  /** Reset that also discards `bot.RAG_CHAIN`. */
  function ResetClearingChain(a: AppState): (r: AppState)
    ensures r.session == Reset(a).session && r.index.None?
    ensures Coherent(r) && Idle(r)
  {
    Reset(a).(ragChain := None)
  }

  /** The upload block with `processing` cleared however it ends (a `finally`). */
  function ProcessUploadReleasing(a: AppState, file: Option<UploadedFile>, stamp: string,
                                  split: string -> seq<string>, indexing: IndexingAttempt): (r: UploadStep)
    ensures r.event == ProcessUpload(a, file, stamp, split, indexing).event
    // the state is the block's as written, except that `processing` is cleared once it ran
    ensures var up := ProcessUpload(a, file, stamp, split, indexing);
      r.state == if r.event.Skipped? then up.state else up.state.(session := up.state.session.(processing := false))
    ensures !r.event.Skipped? ==> Idle(r.state)
    ensures Idle(a) ==> Idle(r.state)
  {
    var up := ProcessUpload(a, file, stamp, split, indexing);
    if up.event.Raised? then up.(state := up.state.(session := up.state.session.(processing := false)))
    else up
  }

  /** One run of the corrected script. */
  function RerunFixed(a: AppState, input: RunInput): RunResult
  {
    if input.resetClicked then RunResult(ResetClearingChain(a), [])
    else ChatAfterUpload(ProcessUploadReleasing(a, input.file, input.stamp, input.split, input.indexing), input)
  }

  /** A sequence of runs of the corrected script. */
  function RunAllFixed(a: AppState, inputs: seq<RunInput>): AppState
    decreases |inputs|
  {
    if |inputs| == 0 then a else RunAllFixed(RerunFixed(a, inputs[0]).state, inputs[1..])
  }

  /** A sequence of runs of the script as written. */
  function RunAll(a: AppState, inputs: seq<RunInput>): AppState
    decreases |inputs|
  {
    if |inputs| == 0 then a else RunAll(Rerun(a, inputs[0]).state, inputs[1..])
  }

  // ---------------------------------------------------------------------
  // The corrected script keeps the chain coherent

  lemma InitialCoherent()
    ensures Coherent(Initial()) && Idle(Initial())
  {
  }

  /** Uploading keeps coherence: it only runs when no chain is set. */
  lemma UploadKeepsCoherent(a: AppState, file: Option<UploadedFile>, stamp: string,
                            split: string -> seq<string>, indexing: IndexingAttempt)
    requires Coherent(a)
    ensures Coherent(ProcessUpload(a, file, stamp, split, indexing).state)
    ensures Coherent(ProcessUploadReleasing(a, file, stamp, split, indexing).state)
  {
  }

  /** Asking keeps coherence: a chain is built only from the index on disk. */
  lemma ChatKeepsCoherent(a: AppState, input: string, build: BuildAttempt, respond: string -> Upstream)
    requires Coherent(a)
    ensures Coherent(Chat(a, input, build, respond).state)
  {
  }

  lemma RerunFixedKeepsInvariants(a: AppState, input: RunInput)
    requires Coherent(a) && Idle(a)
    ensures Coherent(RerunFixed(a, input).state) && Idle(RerunFixed(a, input).state)
  {
    if !input.resetClicked {
      var up := ProcessUploadReleasing(a, input.file, input.stamp, input.split, input.indexing);
      UploadKeepsCoherent(a, input.file, input.stamp, input.split, input.indexing);
      if !(up.event.UnsupportedType? || up.event.Raised?) {
        ChatKeepsCoherent(up.state, input.chatInput, input.build, input.respond);
      }
    }
  }

  /**
   From a fresh process, every reachable state of the corrected script is
   coherent and idle between runs.
   */
  lemma {:induction false} RunsStayCoherent(a: AppState, inputs: seq<RunInput>)
    requires Coherent(a) && Idle(a)
    ensures Coherent(RunAllFixed(a, inputs)) && Idle(RunAllFixed(a, inputs))
    decreases |inputs|
  {
    if |inputs| > 0 {
      RerunFixedKeepsInvariants(a, inputs[0]);
      RunsStayCoherent(RerunFixed(a, inputs[0]).state, inputs[1..]);
    }
  }

  // ---------------------------------------------------------------------
  // Concrete runs

  /** A splitter that keeps a text whole (any splitter shows the same). */
  function Whole(s: string): seq<string>
  {
    [s]
  }

  function Reply(question: string): Upstream
  {
    Upstream([map["answer" := "Revenue was 10."]], None)
  }

  lemma ExampleKinds()
    ensures KindOf("Q3 Report.PDF") == Pdf
    ensures KindOf("budget.xlsx") == Spreadsheet
  {
    assert "Q3 Report"[0] != '.';
    ExtensionOfName("Q3 Report", ".PDF");
    assert "Q3 Report" + ".PDF" == "Q3 Report.PDF";
    assert Lower(".PDF") == ".pdf";
    assert "budget"[0] != '.';
    ExtensionOfName("budget", ".xlsx");
    assert "budget" + ".xlsx" == "budget.xlsx";
    assert Lower(".xlsx") == ".xlsx";
  }

  /** A name with a leading dot still has an extension after its last dot. */
  lemma DotLedNameKind()
    ensures KindOf(".report.pdf") == Pdf
  {
    assert ".report"[1] != '.';
    ExtensionOfName(".report", ".pdf");
    assert ".report" + ".pdf" == ".report.pdf";
    assert Lower(".pdf") == ".pdf";
  }

  /**
   A readable PDF upload followed by a question. In the app these are two
   script runs, since the chat input (app.py:100) is shown only once the index
   is ready; one combined run stands for both and reaches the same state,
   because the second run's upload block is skipped by the guard at app.py:53.
   */
  function AskAboutPdf(stamp: string): RunInput
  {
    var pdf := UploadedFile("Q3 Report.PDF", ReadFailed("not a workbook"), Read(["Revenue: 10"]));
    RunInput(false, Some(pdf), stamp, Whole, IndexingOk, "What was the revenue?", BuildOk, Reply)
  }

  /** A spreadsheet upload that openpyxl cannot read. */
  function BrokenWorkbook(): RunInput
  {
    var xlsx := UploadedFile("budget.xlsx", ReadFailed("File is not a zip file"), ReadFailed("not a PDF"));
    RunInput(false, Some(xlsx), "20240101000000", Whole, IndexingOk, "", BuildOk, Reply)
  }

  /** Pressing "Reset Chat". */
  function PressReset(): RunInput
  {
    RunInput(true, None, "", Whole, IndexingOk, "", BuildOk, Reply)
  }

  /** Uploading the readable PDF indexes it. */
  lemma PdfUpload(a: AppState, stamp: string)
    requires !a.session.vectorStoreReady && !a.session.processing
    ensures var up := ProcessUpload(a, AskAboutPdf(stamp).file, stamp, Whole, IndexingOk);
      && up.event.Indexed?
      && up.state.index == Some(a.writes) && up.state.writes == a.writes + 1
      && up.state.session.vectorStoreReady && !up.state.session.processing
      && up.state.ragChain == a.ragChain
  {
    ExampleKinds();
    var f := AskAboutPdf(stamp).file.value;
    var docs := LoadPdf(UploadPath(stamp, f.name), ["Revenue: 10"], Whole);
    assert |docs| == 1;
    assert LoadDocuments(Pdf, UploadPath(stamp, f.name), f, Whole) == Read(docs);
  }

  /** ... and the question that follows is answered, building the chain if none is set. */
  lemma PdfRun(a: AppState, stamp: string)
    requires !a.session.vectorStoreReady && !a.session.processing
    ensures var r := Rerun(a, AskAboutPdf(stamp)).state;
      && r == RerunFixed(a, AskAboutPdf(stamp)).state
      && r.index == Some(a.writes) && r.writes == a.writes + 1
      && r.session.vectorStoreReady && !r.session.processing
      && r.ragChain == (if a.ragChain.Some? then a.ragChain else Some(Chain(a.writes)))
  {
    var input := AskAboutPdf(stamp);
    PdfUpload(a, stamp);
    var up := ProcessUpload(a, input.file, stamp, Whole, IndexingOk);
    assert ProcessUploadReleasing(a, input.file, stamp, Whole, IndexingOk) == up;
    assert Rerun(a, input) == ChatAfterUpload(up, input);
    var c := Chat(up.state, input.chatInput, BuildOk, Reply);
    assert ChatAfterUpload(up, input).state == c.state;
  }

  /** The unreadable workbook raises: as written `processing` stays set; corrected it is cleared. */
  lemma BrokenRun(a: AppState)
    requires !a.session.vectorStoreReady && !a.session.processing
    ensures Rerun(a, BrokenWorkbook()).state == a.(session := a.session.(processing := true))
    ensures RerunFixed(a, BrokenWorkbook()).state == a
  {
    ExampleKinds();
    var input := BrokenWorkbook();
    var f := input.file.value;
    assert LoadDocuments(Spreadsheet, UploadPath(input.stamp, f.name), f, Whole) == ReadFailed("File is not a zip file");
    var up := ProcessUpload(a, input.file, input.stamp, Whole, IndexingOk);
    assert up.event == Raised("File is not a zip file");
  }

  lemma RunAllCons(a: AppState, x: RunInput, rest: seq<RunInput>)
    ensures RunAll(a, [x] + rest) == RunAll(Rerun(a, x).state, rest)
    ensures RunAllFixed(a, [x] + rest) == RunAllFixed(RerunFixed(a, x).state, rest)
  {
    assert ([x] + rest)[1..] == rest;
  }

  lemma RunAllThree(a: AppState, x: RunInput, y: RunInput, z: RunInput)
    ensures RunAll(a, [x, y, z]) == Rerun(Rerun(Rerun(a, x).state, y).state, z).state
    ensures RunAllFixed(a, [x, y, z]) == RerunFixed(RerunFixed(RerunFixed(a, x).state, y).state, z).state
  {
    assert [x, y, z] == [x] + [y, z];
    assert [y, z] == [y] + [z];
    assert [z] == [z] + [];
    RunAllCons(a, x, [y, z]);
    RunAllCons(Rerun(a, x).state, y, [z]);
    RunAllCons(RerunFixed(a, x).state, y, [z]);
    RunAllCons(Rerun(Rerun(a, x).state, y).state, z, []);
    RunAllCons(RerunFixed(RerunFixed(a, x).state, y).state, z, []);
  }

  lemma RunAllTwo(a: AppState, x: RunInput, y: RunInput)
    ensures RunAll(a, [x, y]) == Rerun(Rerun(a, x).state, y).state
    ensures RunAllFixed(a, [x, y]) == RerunFixed(RerunFixed(a, x).state, y).state
  {
    assert [x, y] == [x] + [y];
    assert [y] == [y] + [];
    RunAllCons(a, x, [y]);
    RunAllCons(Rerun(a, x).state, y, []);
    RunAllCons(RerunFixed(a, x).state, y, []);
  }

  /**
   As written: upload, ask, reset, upload another file, ask. The second
   question is answered by the chain of the first, deleted index.
   */
  lemma StaleChainAfterReset()
    ensures var s := RunAll(Initial(), [AskAboutPdf("1"), PressReset(), AskAboutPdf("2")]);
      s.index == Some(1) && s.ragChain == Some(Chain(0)) && !Coherent(s)
  {
    RunAllThree(Initial(), AskAboutPdf("1"), PressReset(), AskAboutPdf("2"));
    PdfRun(Initial(), "1");
    var s1 := Rerun(Initial(), AskAboutPdf("1")).state;
    var s2 := Rerun(s1, PressReset()).state;
    assert s2 == Reset(s1);
    PdfRun(s2, "2");
  }

  /** Corrected: the same runs answer the second question from the new index. */
  lemma FixedChainFollowsIndex()
    ensures var s := RunAllFixed(Initial(), [AskAboutPdf("1"), PressReset(), AskAboutPdf("2")]);
      s.index == Some(1) && s.ragChain == Some(Chain(1)) && Coherent(s)
  {
    RunAllThree(Initial(), AskAboutPdf("1"), PressReset(), AskAboutPdf("2"));
    PdfRun(Initial(), "1");
    var s1 := RerunFixed(Initial(), AskAboutPdf("1")).state;
    var s2 := RerunFixed(s1, PressReset()).state;
    assert s2 == ResetClearingChain(s1);
    PdfRun(s2, "2");
  }

  /** As written: once `processing` is left set, every upload is skipped. */
  lemma ProcessingBlocksUploads(a: AppState, file: Option<UploadedFile>, stamp: string,
                                split: string -> seq<string>, indexing: IndexingAttempt)
    requires a.session.processing
    ensures ProcessUpload(a, file, stamp, split, indexing) == UploadStep(a, Skipped)
  {
  }

  /**
   As written: an unreadable workbook leaves `processing` set, and a readable
   PDF uploaded afterwards is never processed.
   */
  lemma UploadLockedAfterRaise()
    ensures var s := RunAll(Initial(), [BrokenWorkbook(), AskAboutPdf("2")]);
      s.session.processing && !s.session.vectorStoreReady && s.index.None?
  {
    RunAllTwo(Initial(), BrokenWorkbook(), AskAboutPdf("2"));
    BrokenRun(Initial());
    var s1 := Rerun(Initial(), BrokenWorkbook()).state;
    var input := AskAboutPdf("2");
    ProcessingBlocksUploads(s1, input.file, input.stamp, input.split, input.indexing);
  }

  /** Corrected: the same readable PDF is indexed after the failed workbook. */
  lemma FixedUploadAfterRaise()
    ensures var s := RunAllFixed(Initial(), [BrokenWorkbook(), AskAboutPdf("2")]);
      !s.session.processing && s.session.vectorStoreReady && s.index == Some(0)
  {
    RunAllTwo(Initial(), BrokenWorkbook(), AskAboutPdf("2"));
    BrokenRun(Initial());
    PdfRun(Initial(), "2");
  }
}
