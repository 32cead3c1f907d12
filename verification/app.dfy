/**
 The session controller of `app.py`: the four session flags (`messages`,
 `vector_store_ready`, `chain`, `processing`), how a reset, an upload and a
 question change them, and the `stream_bot_response` wrapper that relays the
 bot's tokens and records the assistant's turn.

 Besides the Streamlit session state, two process-wide things matter: the
 persisted `Finance_index` directory and the module-level `RAG_CHAIN` of
 `utils/bot.py`. Both are part of `AppState`.
 */
module App {
  import opened Optional
  import opened Text
  import opened FileParser
  import opened Bot

  const UploadDir := "data/uploads"
  const QuestionPrefix := "Please respond only in English and with proper spacing"
  const RelayErrorPrefix := "Error: "

  datatype Role = User | Assistant
  datatype Message = Message(role: Role, content: string)

  /** `st.session_state`. */
  datatype Session = Session(messages: seq<Message>, vectorStoreReady: bool, chain: Option<Chain>, processing: bool)

  /**
   The whole state one script run sees: the session, the persisted index
   (absent, or the number of the write that produced it), the number of index
   writes so far, and `bot.RAG_CHAIN`.
   */
  datatype AppState = AppState(session: Session, index: Option<nat>, writes: nat, ragChain: Option<Chain>)

  // ---------------------------------------------------------------------
  // Initialisation and reset

  /** The session a new browser session starts with. */
  function FreshSession(): Session
  {
    Session([], false, None, false)
  }

  /**
   The initialisation block: a new session gets the defaults, an existing
   one is kept (the four keys are always set together).
   */
  function InitSession(stored: Option<Session>): (r: Session)
    ensures stored.Some? ==> r == stored.value
    ensures stored.None? ==> r.messages == [] && !r.vectorStoreReady && r.chain.None? && !r.processing
  {
    stored.GetOr(FreshSession())
  }

  /** A process that has not written an index yet. */
  function Initial(): AppState
  {
    AppState(FreshSession(), None, 0, None)
  }

  /**
   "Reset Chat": the session flags go back to their defaults and the index is
   deleted. `bot.RAG_CHAIN` is not touched.
   */
  function Reset(a: AppState): (r: AppState)
    ensures r.session == InitSession(None)
    ensures r.index.None?
    ensures r.ragChain == a.ragChain && r.writes == a.writes
  {
    AppState(FreshSession(), None, a.writes, a.ragChain)
  }

  /** Reset forgets everything about the session it came from, and a second reset changes nothing. */
  lemma ResetForgets(a: AppState, b: AppState)
    ensures Reset(a).session == Reset(b).session
    ensures Reset(Reset(a)) == Reset(a)
  {
  }

  // ---------------------------------------------------------------------
  // File extensions

  /** Python's `s.rfind(c)`: the last position of `c`, or -1. */
  function LastIndexOf(s: string, c: char): (r: int)
    ensures -1 <= r < |s|
    ensures r >= 0 ==> s[r] == c
    ensures forall j :: r < j < |s| ==> s[j] != c
    decreases |s|
  {
    if |s| == 0 then -1
    else if s[|s| - 1] == c then |s| - 1
    else LastIndexOf(s[..|s| - 1], c)
  }

  /** The last occurrence is unique: a position holding `c` with no `c` after it is the one found. */
  lemma LastIndexOfIs(s: string, c: char, k: int)
    requires -1 <= k < |s| && (k >= 0 ==> s[k] == c)
    requires forall j :: k < j < |s| ==> s[j] != c
    ensures LastIndexOf(s, c) == k
  {
    var r := LastIndexOf(s, c);
    if r < k {
      assert false;
    }
    if k < r {
      assert false;
    }
  }

  /** Some character of `p[lo..hi]` is not a dot. */
  predicate HasNonDot(p: string, lo: int, hi: int)
    requires 0 <= lo <= hi <= |p|
  {
    exists i :: lo <= i < hi && p[i] != '.'
  }

  /**
   `os.path.splitext(p)[1]`: from the last dot of the final path component on,
   or empty when that component has no dot after a non-dot character.
   */
  function Extension(p: string): (r: string)
    ensures |r| <= |p|
    ensures r == "" || (r[0] == '.' && '.' !in r[1..] && '/' !in r && r == p[|p| - |r|..])
  {
    var sepIndex := LastIndexOf(p, '/');
    var dotIndex := LastIndexOf(p, '.');
    if dotIndex > sepIndex && HasNonDot(p, sepIndex + 1, dotIndex) then
      var r := p[dotIndex..];
      assert forall j :: 1 <= j < |r| ==> r[j] == p[dotIndex + j];
      r
    else ""
  }

  datatype FileKind = Spreadsheet | Pdf | Unsupported

  /** The dispatch on the lower-cased extension. */
  function KindOf(name: string): (r: FileKind)
    ensures r == Spreadsheet <==> Lower(Extension(name)) in [".xls", ".xlsx"]
    ensures r == Pdf <==> Lower(Extension(name)) == ".pdf"
  {
    var ext := Lower(Extension(name));
    if ext == ".xls" || ext == ".xlsx" then Spreadsheet
    else if ext == ".pdf" then Pdf
    else Unsupported
  }

  /**
   A file name made of a stem with some non-dot character (`report`,
   `.report`, `a.b`) and an extension (a dot, then no dot) has exactly that
   extension.
   */
  lemma ExtensionOfName(stem: string, ext: string)
    requires HasNonDot(stem, 0, |stem|) && '/' !in stem
    requires |ext| > 0 && ext[0] == '.' && '.' !in ext[1..] && '/' !in ext
    ensures Extension(stem + ext) == ext
  {
    var p := stem + ext;
    assert forall j :: |stem| < j < |p| ==> p[j] == ext[1..][j - |stem| - 1];
    LastIndexOfIs(p, '/', -1);
    LastIndexOfIs(p, '.', |stem|);
    var i :| 0 <= i < |stem| && stem[i] != '.';
    assert p[i] == stem[i];
    assert HasNonDot(p, 0, |stem|);
    assert p[|stem|..] == ext;
  }

  /**
   A name whose stem is only dots (`.pdf`, `..pdf`) has no extension, as
   `splitext` skips leading dots, so it is an unsupported type.
   */
  lemma DotsOnlyStemHasNoExtension(stem: string, ext: string)
    requires forall i :: 0 <= i < |stem| ==> stem[i] == '.'
    requires |ext| > 0 && ext[0] == '.' && '.' !in ext[1..] && '/' !in ext
    ensures Extension(stem + ext) == "" && KindOf(stem + ext) == Unsupported
  {
    var p := stem + ext;
    assert forall j :: |stem| < j < |p| ==> p[j] == ext[1..][j - |stem| - 1];
    assert forall j :: 0 <= j < |stem| ==> p[j] == stem[j];
    LastIndexOfIs(p, '/', -1);
    LastIndexOfIs(p, '.', |stem|);
    assert !HasNonDot(p, 0, |stem|);
    assert Lower("") == "";
  }

  /** Lower-casing leaves a non-letter where it was. */
  lemma LastIndexOfLower(s: string, c: char)
    requires !('A' <= c <= 'Z') && !('a' <= c <= 'z')
    ensures LastIndexOf(Lower(s), c) == LastIndexOf(s, c)
  {
    var t := Lower(s);
    var a, b := LastIndexOf(t, c), LastIndexOf(s, c);
    assert forall j :: 0 <= j < |s| ==> (t[j] == c <==> s[j] == c);
    if a < b {
      assert false;
    } else if b < a {
      assert false;
    }
  }

  /** Lower-casing commutes with taking a suffix. */
  lemma LowerSuffix(p: string, d: int)
    requires 0 <= d <= |p|
    ensures Lower(p)[d..] == Lower(p[d..])
  {
  }

  /** Lower-casing keeps dots and non-dots apart. */
  lemma HasNonDotLower(p: string, lo: int, hi: int)
    requires 0 <= lo <= hi <= |p|
    ensures HasNonDot(Lower(p), lo, hi) <==> HasNonDot(p, lo, hi)
  {
    var q := Lower(p);
    if HasNonDot(p, lo, hi) {
      var i :| lo <= i < hi && p[i] != '.';
      assert q[i] != '.';
    }
    if HasNonDot(q, lo, hi) {
      var i :| lo <= i < hi && q[i] != '.';
      assert p[i] != '.';
    }
  }

  /** Taking the extension commutes with lower-casing. */
  lemma ExtensionLower(p: string)
    ensures Extension(Lower(p)) == Lower(Extension(p))
  {
    LastIndexOfLower(p, '/');
    LastIndexOfLower(p, '.');
    var sepIndex := LastIndexOf(p, '/');
    var dotIndex := LastIndexOf(p, '.');
    if dotIndex > sepIndex {
      HasNonDotLower(p, sepIndex + 1, dotIndex);
      LowerSuffix(p, dotIndex);
    }
  }

  /** Lower-casing twice is lower-casing once. */
  lemma LowerIdempotent(s: string)
    ensures Lower(Lower(s)) == Lower(s)
  {
  }

  /** The dispatch does not depend on the case of the file name. */
  lemma KindIgnoresCase(name: string)
    ensures KindOf(Lower(name)) == KindOf(name)
  {
    ExtensionLower(name);
    LowerIdempotent(Extension(name));
  }

  // ---------------------------------------------------------------------
  // Upload processing

  /** What a reader library gives for the file: its content, or the message it raised. */
  datatype Reading<T> = Read(value: T) | ReadFailed(message: string)

  /**
   An uploaded file: its name, and what openpyxl and PyMuPDF would read from
   it (each loader is asked only when the extension selects it).
   */
  datatype UploadedFile = UploadedFile(name: string, workbook: Reading<seq<Sheet>>, pages: Reading<seq<string>>)

  /** Embedding, writing, reloading the index and building the session chain (lines 80-85). */
  datatype IndexingAttempt = IndexingOk | IndexingFailed(message: string)

  datatype UploadEvent = Skipped | UnsupportedType | NoDocuments | Indexed(chunks: nat) | Raised(message: string)
  datatype UploadStep = UploadStep(state: AppState, event: UploadEvent)

  /** Where the upload is stored: the upload directory, a timestamp, and the file name. */
  function UploadPath(stamp: string, name: string): (r: string)
    ensures |r| == |UploadDir| + |stamp| + |name| + 2
    ensures r[..|UploadDir| + 1] == UploadDir + "/"
    ensures r[|UploadDir| + 1..|r| - |name|] == stamp + "_"
    ensures r[|r| - |name|..] == name
  {
    UploadDir + "/" + stamp + "_" + name
  }

  /** The loader the extension selects, applied to the stored file. */
  function LoadDocuments(kind: FileKind, path: string, file: UploadedFile, split: string -> seq<string>): (r: Reading<seq<Document>>)
    requires kind != Unsupported
    // a spreadsheet goes to `load_xlsx`, a PDF to `load_pdf`; a reader's exception is passed on
    ensures kind == Spreadsheet ==>
      r == match file.workbook
           case Read(sheets) => Read(LoadXlsx(path, sheets, split))
           case ReadFailed(m) => ReadFailed(m)
    ensures kind == Pdf ==>
      r == match file.pages
           case Read(pages) => Read(LoadPdf(path, pages, split))
           case ReadFailed(m) => ReadFailed(m)
    // every loaded chunk names the stored file as its source
    ensures r.Read? ==> forall k :: 0 <= k < |r.value| ==> "source" in r.value[k].metadata && r.value[k].metadata["source"] == path
  {
    if kind == Spreadsheet then
      match file.workbook
      case Read(sheets) => Read(LoadXlsx(path, sheets, split))
      case ReadFailed(m) => ReadFailed(m)
    else
      match file.pages
      case Read(pages) => Read(LoadPdf(path, pages, split))
      case ReadFailed(m) => ReadFailed(m)
  }

  /**
   What the block reports once a loader returned `docs` (lines 77-91):
   nothing to index, the chunks indexed, or the indexing exception.
   */
  predicate LoadedOutcome(event: UploadEvent, docs: seq<Document>, indexing: IndexingAttempt)
  {
    if |docs| == 0 then event == NoDocuments
    else match indexing
      case IndexingOk => event == Indexed(|docs|)
      case IndexingFailed(m) => event == Raised(m)
  }

  /** The upload block is entered: a file is present, no index is ready, nothing is processing. */
  predicate UploadStarts(s: Session, file: Option<UploadedFile>)
  {
    file.Some? && !s.vectorStoreReady && !s.processing
  }

  /**
   The upload block (lines 53-91). An exception from a reader or from
   indexing ends the script run with `processing` still set.
   */
  function ProcessUpload(a: AppState, file: Option<UploadedFile>, stamp: string,
                         split: string -> seq<string>, indexing: IndexingAttempt): (r: UploadStep)
    // the guard: otherwise nothing happens
    ensures !UploadStarts(a.session, file) <==> r.event.Skipped?
    ensures r.event.Skipped? ==> r.state == a
    // the transcript and the bot's chain are never touched
    ensures r.state.session.messages == a.session.messages && r.state.ragChain == a.ragChain
    // dispatch on the lower-cased extension
    ensures r.event.UnsupportedType? <==> UploadStarts(a.session, file) && KindOf(file.value.name) == Unsupported
    // `.xls`/`.xlsx` are read by `load_xlsx`, `.pdf` by `load_pdf`; a reader's exception is raised
    ensures UploadStarts(a.session, file) && KindOf(file.value.name) == Spreadsheet ==>
      match file.value.workbook
      case ReadFailed(m) => r.event == Raised(m)
      case Read(sheets) => LoadedOutcome(r.event, LoadXlsx(UploadPath(stamp, file.value.name), sheets, split), indexing)
    ensures UploadStarts(a.session, file) && KindOf(file.value.name) == Pdf ==>
      match file.value.pages
      case ReadFailed(m) => r.event == Raised(m)
      case Read(pages) => LoadedOutcome(r.event, LoadPdf(UploadPath(stamp, file.value.name), pages, split), indexing)
    // on every path but success only `processing` changes: cleared when handled, left set on an exception
    ensures r.event.UnsupportedType? || r.event.NoDocuments? ==> r.state == a.(session := a.session.(processing := false))
    ensures r.event.Raised? ==> r.state == a.(session := a.session.(processing := true))
    // handled outcomes clear `processing` and leave no index ready
    ensures r.event.UnsupportedType? || r.event.NoDocuments? ==>
      !r.state.session.processing && !r.state.session.vectorStoreReady && r.state.index == a.index
    // success: a new index is written and the session becomes ready
    ensures r.event.Indexed? ==>
      && r.event.chunks > 0
      && r.state.session.vectorStoreReady && !r.state.session.processing
      && r.state.index == Some(a.writes) && r.state.writes == a.writes + 1
      && r.state.session.chain == Some(Chain(a.writes))
    // an exception leaves `processing` set
    ensures r.event.Raised? ==>
      r.state.session.processing && !r.state.session.vectorStoreReady && r.state.index == a.index
    ensures r.state.session.vectorStoreReady <==> a.session.vectorStoreReady || r.event.Indexed?
  {
    if !UploadStarts(a.session, file) then UploadStep(a, Skipped)
    else
      var busy := a.(session := a.session.(processing := true));
      var idle := a.(session := a.session.(processing := false));
      var f := file.value;
      var kind := KindOf(f.name);
      if kind == Unsupported then UploadStep(idle, UnsupportedType)
      else match LoadDocuments(kind, UploadPath(stamp, f.name), f, split)
        case ReadFailed(m) => UploadStep(busy, Raised(m))
        case Read(docs) =>
          if |docs| == 0 then UploadStep(idle, NoDocuments)
          else match indexing
            case IndexingFailed(m) => UploadStep(busy, Raised(m))
            case IndexingOk =>
              var w := a.writes;
              var session := a.session.(vectorStoreReady := true, chain := Some(Chain(w)), processing := false);
              UploadStep(AppState(session, Some(w), w + 1, a.ragChain), Indexed(|docs|))
  }

  // ---------------------------------------------------------------------
  // Asking a question

  /** What `ask_bot` gives the wrapper: tokens, then possibly an exception escaping it. */
  datatype BotStream = BotStream(tokens: seq<string>, escaped: Option<string>)

  /** The tokens the wrapper yields and the transcript afterwards. */
  datatype Relay = Relay(messages: seq<Message>, tokens: seq<string>)

  /**
   `stream_bot_response` (lines 109-120): relay every token, then append one
   assistant turn with their concatenation; if an exception escapes, relay
   one error token instead and store only that.
   */
  function StreamBotResponse(messages: seq<Message>, stream: BotStream): (r: Relay)
    ensures |r.messages| == |messages| + 1 && r.messages[|messages|].role == Assistant
    ensures r.messages[..|messages|] == messages
    ensures |r.tokens| >= |stream.tokens| && r.tokens[..|stream.tokens|] == stream.tokens
    ensures stream.escaped.None? ==>
      r.tokens == stream.tokens && r.messages[|messages|].content == Concat(r.tokens)
    ensures stream.escaped.Some? ==>
      && |r.tokens| == |stream.tokens| + 1
      && r.messages[|messages|].content == r.tokens[|r.tokens| - 1] == RelayErrorPrefix + stream.escaped.value
  {
    match stream.escaped
    case None => Relay(messages + [Message(Assistant, Concat(stream.tokens))], stream.tokens)
    case Some(e) =>
      var err := RelayErrorPrefix + e;
      Relay(messages + [Message(Assistant, err)], stream.tokens + [err])
  }

  /** The stored turn is what the user saw: all of it, or the error token alone. */
  lemma RelayRecordsWhatWasShown(messages: seq<Message>, stream: BotStream)
    ensures var r := StreamBotResponse(messages, stream);
      r.messages[|messages|].content ==
        if stream.escaped.None? then Concat(r.tokens)
        else Concat(r.tokens[|stream.tokens|..])
  {
    var r := StreamBotResponse(messages, stream);
    if stream.escaped.Some? {
      var tail := r.tokens[|stream.tokens|..];
      assert tail == [r.tokens[|r.tokens| - 1]];
    }
  }

  datatype ChatStep = ChatStep(state: AppState, tokens: seq<string>, question: Option<string>)

  /**
   The chat block (lines 95-120): reachable only once an index is ready and a
   non-empty question was entered. The raw question is stored as the user's
   turn; the bot is asked the fixed prefix followed directly by it.
   */
  function Chat(a: AppState, input: string, build: BuildAttempt, respond: string -> Upstream): (r: ChatStep)
    ensures !a.session.vectorStoreReady || input == "" ==> r == ChatStep(a, [], None)
    ensures a.session.vectorStoreReady && input != "" ==>
      && r.question == Some(QuestionPrefix + input)
      && r.state.session.messages ==
           a.session.messages + [Message(User, input), Message(Assistant, Concat(r.tokens))]
      && r.state.session.vectorStoreReady && r.state.session.chain == a.session.chain
      && r.state.session.processing == a.session.processing
      && r.state.index == a.index && r.state.writes == a.writes
      && r.state.ragChain == AskBotStream(a.index, a.ragChain, build, respond(QuestionPrefix + input)).chain
      && r.tokens == AskBotStream(a.index, a.ragChain, build, respond(QuestionPrefix + input)).tokens
  {
    if !a.session.vectorStoreReady || input == "" then ChatStep(a, [], None)
    else
      var question := QuestionPrefix + input;
      var run := AskBotStream(a.index, a.ragChain, build, respond(question));
      var relay := StreamBotResponse(a.session.messages + [Message(User, input)], BotStream(run.tokens, None));
      assert relay.messages == a.session.messages + [Message(User, input)] + [Message(Assistant, Concat(relay.tokens))];
      ChatStep(a.(session := a.session.(messages := relay.messages), ragChain := run.chain), relay.tokens, Some(question))
  }

  /** The question the bot receives is the prefix with the stored user turn right after it. */
  lemma QuestionIsPrefixedInput(a: AppState, input: string, build: BuildAttempt, respond: string -> Upstream)
    requires a.session.vectorStoreReady && input != ""
    ensures var r := Chat(a, input, build, respond);
      var user := r.state.session.messages[|a.session.messages|];
      && user == Message(User, input)
      && r.question.value[..|QuestionPrefix|] == QuestionPrefix
      && r.question.value[|QuestionPrefix|..] == user.content
  {
    var r := Chat(a, input, build, respond);
    assert r.state.session.messages[|a.session.messages|] == Message(User, input);
  }

  // ---------------------------------------------------------------------
  // One script run

  /** The inputs of one run of `app.py`. */
  datatype RunInput = RunInput(
    resetClicked: bool,
    file: Option<UploadedFile>,
    stamp: string,
    split: string -> seq<string>,
    indexing: IndexingAttempt,
    chatInput: string,
    build: BuildAttempt,
    respond: string -> Upstream)

  datatype RunResult = RunResult(state: AppState, tokens: seq<string>)

  /**
   One run of the script: a reset ends the run; otherwise the upload block
   runs, and unless it stopped the script (unsupported type) or raised, the
   chat block follows.
   */
  function Rerun(a: AppState, input: RunInput): (r: RunResult)
    ensures input.resetClicked ==> r == RunResult(Reset(a), [])
    ensures !input.resetClicked ==> r.state.index == ProcessUpload(a, input.file, input.stamp, input.split, input.indexing).state.index
    // a question is recorded, with its answer, exactly when the run reaches the chat block ready and with input
    ensures !input.resetClicked ==>
      var up := ProcessUpload(a, input.file, input.stamp, input.split, input.indexing);
      var chats := !(up.event.UnsupportedType? || up.event.Raised?) && up.state.session.vectorStoreReady && input.chatInput != "";
      && (chats ==>
            r.state.session.messages ==
              a.session.messages + [Message(User, input.chatInput), Message(Assistant, Concat(r.tokens))])
      && (!chats ==> r.state.session.messages == a.session.messages && r.tokens == [])
    ensures |r.tokens| > 0 ==> r.state.session.vectorStoreReady
  {
    if input.resetClicked then RunResult(Reset(a), [])
    else
      var up := ProcessUpload(a, input.file, input.stamp, input.split, input.indexing);
      ChatAfterUpload(up, input)
  }

  /** The rest of a run once the upload block is done. */
  function ChatAfterUpload(up: UploadStep, input: RunInput): (r: RunResult)
    // `st.stop()` after an unsupported type, or an exception, ends the run before the chat block
    ensures up.event.UnsupportedType? || up.event.Raised? ==> r == RunResult(up.state, [])
    // otherwise the chat block follows the upload block
    ensures !(up.event.UnsupportedType? || up.event.Raised?) ==>
      var c := Chat(up.state, input.chatInput, input.build, input.respond);
      r.state == c.state && r.tokens == c.tokens
    ensures r.state.index == up.state.index
    ensures |r.tokens| > 0 ==> r.state.session.vectorStoreReady
  {
    if up.event.UnsupportedType? || up.event.Raised? then RunResult(up.state, [])
    else
      var c := Chat(up.state, input.chatInput, input.build, input.respond);
      RunResult(c.state, c.tokens)
  }
}
