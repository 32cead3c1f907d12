# Financial_Bot in Dafny

This project models the deterministic core of Financial_Bot, a Streamlit assistant that answers questions about an uploaded financial PDF or spreadsheet. It covers three parts:

- **Document flattening** (`utils/file_parser.py`). A workbook becomes one text document per sheet that has content. In each sheet, all-empty rows are dropped, cells are joined with `" | "` and rows with `"\n"`. A PDF's page texts are joined with `"\n"`. Every chunk the splitter produces carries `source` metadata, and workbook chunks also carry `sheet`.
- **Answer streaming** (`utils/bot.py`):
  - A missing `Finance_index` directory short-circuits to one fixed message.
  - The module-level `RAG_CHAIN` is built lazily, at most once.
  - Each streamed chunk contributes its `answer`, else its `result`, else nothing.
  - An exception becomes one trailing `Error processing request: …` token.
- **Session controller** (`app.py`). The four session flags (`messages`, `vector_store_ready`, `chain`, `processing`) change on reset, on upload processing and on a question. The `stream_bot_response` wrapper relays the bot's tokens and records exactly one assistant turn.

Modules:

- `Optional`: the `Option` datatype (Python's `None`).
- `Text`: `sep.join`, its inverse split, and ASCII lower-casing.
- `FileParser`: cells, rows, sheets, documents, and the two loaders.
- `Bot`: chunk projection, `ask_bot` in streaming mode, and the lazy chain.
- `App`: session state, reset, extension dispatch, upload, chat, and one whole script run.
- `AppFixes`: the two defects listed under Findings, shown on concrete runs, and a corrected controller with its invariant proved.

Things outside the code are parameters:

- The text splitter is a function `split: string -> seq<string>`.
- What openpyxl and PyMuPDF read from a file is a `Reading`: the content, or the message they raised.
- Building the chain is a `BuildAttempt`, and the chain's stream is an `Upstream`: its chunks, then possibly an exception message.
- The upload timestamp is a string.

The persisted index is `Option<nat>`: absent, or the number of the index write that produced it. `Chain(k)` is a chain loaded from write `k`. Tracking which write a chain came from is what makes the stale-chain defect expressible.

In these places the model follows the code:

- Workbook rows keep their empty cells when joined (`"a |  | b"`). Only rows whose cells are all empty are dropped.
- A missing index yields a fixed message token, not an error value.
- Two different error texts exist. The bot yields `"Error processing request: "` + message. The wrapper in `app.py` has a handler that would use `"Error: "` + message for an exception escaping the bot. `ask_bot` catches every `Exception` itself, so that handler is modelled in `StreamBotResponse` but `Chat` never reaches it.
- The user turn stores the raw question. The bot receives `"Please respond only in English and with proper spacing"` + question, with no separator.
- Reset does not discard the bot's chain (see Findings).

## Model

| member | source | states |
|---|---|---|
| Text.Join | utils/file_parser.py:37 | `sep.join(parts)` is empty for no parts, starts with the first part, and its length is the parts' total length plus one separator per neighbouring pair |
| Text.JoinAppend | utils/file_parser.py:15 | joining two non-empty runs of parts equals joining each and putting one separator at the seam, so part order is text order |
| Text.Concat | app.py:116 | `"".join(tokens)` is as long as the tokens together and starts with the first token |
| Text.ConcatAppend | app.py:116 | `"".join` of a concatenation of token lists is the concatenation of their joins |
| Text.Split | utils/file_parser.py:37-40 | splitting a text at a separator and joining the fields again gives the text back, for every text |
| Text.SplitJoin | utils/file_parser.py:37-40 | splitting a join recovers the parts provided no part contains the separator's marker character (`|` of `" | "`, the newline of `"\n"`) |
| Text.Lower | app.py:67 | `.lower()` keeps the length and lower-cases character by character (ASCII letters only) |
| FileParser.RenderCell | utils/file_parser.py:35 | a `None` cell renders as the empty string, any other cell as its string form |
| FileParser.RenderRow | utils/file_parser.py:35 | a row renders cell by cell, in column order, one string per cell |
| FileParser.RenderRowAppend | utils/file_parser.py:35 | the cells of `a + b` render as those of `a`, then those of `b` |
| FileParser.AnyNonEmpty | utils/file_parser.py:36 | Python's `any` over strings holds iff some string is non-empty |
| FileParser.RowKeptIff | utils/file_parser.py:35-36 | a row is kept iff some cell is present and its string form is non-empty; `None` and `""` cells count alike |
| FileParser.RowText | utils/file_parser.py:37 | a row's text has the length of all rendered cells, empty ones included, plus three characters per separator |
| FileParser.RowTextAppend | utils/file_parser.py:37 | for any cell contents, the text of `a + b` is the text of `a`, then `" | "`, then the text of `b`; with the single-cell case this fixes the row text as all cells joined by `" | "` |
| FileParser.RowTextSingle | utils/file_parser.py:37 | a one-cell row's text is that cell's text |
| FileParser.KeptRowTextNonEmpty | utils/file_parser.py:36-37 | a kept row never yields an empty line |
| FileParser.RowTextCells | utils/file_parser.py:37 | when no cell contains `|`, the row text splits at `" | "` back into exactly the rendered cells, so there is one cell more than separators |
| FileParser.SheetLines | utils/file_parser.py:34-37 | a sheet has at most one line per row, every line non-empty, and no lines iff no row is kept |
| FileParser.SheetLinesAppend | utils/file_parser.py:34-37 | lines are produced row by row in row order: the lines of `a + b` are those of `a` then those of `b` |
| FileParser.SheetLinesSingle | utils/file_parser.py:36-37 | one row gives its text if kept and nothing otherwise |
| FileParser.SheetDocument | utils/file_parser.py:39-45 | a sheet yields no document iff no row is kept; otherwise one non-empty document whose metadata has exactly the keys `source` (the path) and `sheet` (the sheet name) |
| FileParser.SheetDocumentAppend | utils/file_parser.py:39-40 | for any cell contents, multi-line cells included, the text of the rows `a + b` is the text of `a`, a newline, then the text of `b` |
| FileParser.SheetDocumentSingle | utils/file_parser.py:36-45 | a sheet whose only row is kept has that row's text as its document, with `{source, sheet}` metadata |
| FileParser.SheetDocumentMetadata | utils/file_parser.py:43 | a sheet document's metadata is exactly `{source: path, sheet: name}` |
| FileParser.SheetDocumentLines | utils/file_parser.py:40 | when no line contains a newline, a sheet document's text splits at `"\n"` back into the kept rows' texts in order |
| FileParser.WorkbookDocuments | utils/file_parser.py:30-45 | a workbook yields at most one document per sheet, each the document of one of its sheets, and none iff every sheet is empty |
| FileParser.WorkbookDocumentsAppend | utils/file_parser.py:30-45 | documents come in sheet order: the documents of `a + b` are those of `a` then those of `b` |
| FileParser.WorkbookDocumentsSingle | utils/file_parser.py:39-45 | one sheet gives its document if it has one and nothing otherwise |
| FileParser.DocumentFromSheet | utils/file_parser.py:41-45 | every workbook document carries the metadata of one of the workbook's sheets |
| FileParser.Tag | utils/file_parser.py:17-20 | tagging chunks gives one document per chunk, in chunk order, each with the given metadata |
| FileParser.SplitDocuments | utils/file_parser.py:47-48 | every chunk of split documents carries the metadata of one of the input documents; no documents give no chunks |
| FileParser.SplitDocumentsAppend | utils/file_parser.py:47-48 | splitting works document by document, in document order |
| FileParser.SplitDocumentsSingle | utils/file_parser.py:47-48 | one document splits into the splitter's chunks of its own text, in order, each with that document's metadata |
| FileParser.LoadXlsxAppend | utils/file_parser.py:30-48 | the chunks of a workbook come sheet by sheet: those of sheets `a + b` are those of `a`, then those of `b` |
| FileParser.LoadXlsxSingle | utils/file_parser.py:34-48 | one sheet gives the splitter's chunks of its document text, each tagged `{source: path, sheet: name}`, and no chunks when it has no document |
| FileParser.ChunkFromSheet | utils/file_parser.py:41-48 | every workbook chunk carries the metadata of one of the workbook's sheets |
| FileParser.LoadXlsx | utils/file_parser.py:26-50 | every chunk's metadata has exactly the keys `source` (the path) and `sheet` (a sheet of the workbook); a workbook without content gives no chunks |
| FileParser.PdfText | utils/file_parser.py:13-15 | the PDF text is as long as the pages together plus one newline between neighbouring pages |
| FileParser.PdfTextAppend | utils/file_parser.py:13-15 | page order is kept: the text of two runs of pages is their texts joined by one newline |
| FileParser.LoadPdf | utils/file_parser.py:9-22 | there is exactly one document per split chunk, and each one's metadata is `{source: path}` and nothing else |
| FileParser.LoadPdfContents | utils/file_parser.py:15-20 | the PDF documents' texts are exactly the splitter's chunks, in split order |
| Bot.ChunkToken | utils/bot.py:31-34 | a chunk gives no token iff it has neither `answer` nor `result`; a token is one of those two values, and `answer` wins when present |
| Bot.ProjectTokens | utils/bot.py:30-34 | there are never more tokens than chunks, every chunk gives a token iff each has `answer` or `result`, and every token is the token of some chunk |
| Bot.ProjectTokensAppend | utils/bot.py:30-34 | chunk order is token order: projecting a concatenation concatenates the tokens |
| Bot.ProjectTokensSingle | utils/bot.py:31-34 | a chunk yields `answer` if present, else `result` if present, else nothing |
| Bot.ErrorToken | utils/bot.py:40 | the error token is `"Error processing request: "` followed by the exception's message |
| Bot.StreamTokens | utils/bot.py:30-42 | the streaming loop's tokens are the projected chunks, then one more token, the prefixed error message, iff the stream raised |
| Bot.AskBotStream | utils/bot.py:14-42 | a missing index gives exactly the fixed message and builds no chain. A set chain is reused unchanged. An unset one is built from the index on disk unless building raises, in which case exactly one error token is yielded. With a chain, the tokens are the stream's, with the error token after them. There is never more than one token beyond the chunk count |
| Bot.ChainBuiltOnce | utils/bot.py:23-26 | over any sequence of calls, a set chain never changes, and an unset one ends up built from the index iff some call's build succeeded, staying unset iff all failed |
| Bot.SelectAnswer | utils/bot.py:37 | the non-streaming answer is the chunk's token as the stream would project it, or "No response generated" when there is none |
| Bot.SelectAnswerMatchesStream | utils/bot.py:37 | the non-streaming answer uses the same `answer`-then-`result` precedence as the stream, with "No response generated" where a chunk would be dropped |
| App.InitSession | app.py:20-27 | a new session starts with no messages, not ready, no chain and not processing; an existing one is kept as is |
| App.Reset | app.py:30-46 | after reset the session is the fresh one and the index is gone, while `bot.RAG_CHAIN` is untouched |
| App.ResetForgets | app.py:30-34 | reset forgets the session it started from, and a second reset changes nothing |
| App.LastIndexOf | app.py:67 | the position found holds the character and nothing after it does, or -1 |
| App.LastIndexOfIs | app.py:67 | the last occurrence is unique |
| App.Extension | app.py:67 | the extension is empty or a suffix of the name that starts with a dot and has no other dot and no `/` |
| App.ExtensionOfName | app.py:67 | a stem without `/` that has some non-dot character (leading dots allowed, as in `.report`), followed by a dot-led suffix without another dot, has exactly that suffix as its extension |
| App.KindOf | app.py:67-72 | a name is a spreadsheet iff its lower-cased extension is `.xls` or `.xlsx`, a PDF iff it is `.pdf`, and unsupported otherwise |
| AppFixes.DotLedNameKind | app.py:67-71 | `.report.pdf` has the extension `.pdf`, so it is read as a PDF |
| App.DotsOnlyStemHasNoExtension | app.py:67-75 | a name whose stem is only dots (`.pdf`, `..pdf`), followed by a dot-led suffix, has no extension and is an unsupported type |
| App.ExtensionLower | app.py:67 | taking the extension commutes with lower-casing |
| App.KindIgnoresCase | app.py:67-71 | the loader chosen does not depend on the case of the file name |
| App.UploadPath | app.py:56-59 | the stored path is the upload directory, `/`, the timestamp, `_`, then the file name |
| App.LoadDocuments | app.py:68-71 | a spreadsheet is read by `load_xlsx` and a PDF by `load_pdf` at the stored path, a reader's exception is passed on, and every loaded chunk's `source` is that path |
| App.ProcessUpload | app.py:53-91 | Processing runs iff a file is present, not ready and not processing; otherwise nothing changes. The transcript and the bot's chain are never touched. `.xls`/`.xlsx` go to `load_xlsx` and `.pdf` to `load_pdf`. A reader's exception is raised. An empty document list is reported as no documents. A non-empty list is indexed, with one chunk count per document, or raises the indexing exception. An unsupported extension (lower-cased) or an empty document list changes nothing but clearing `processing`; an exception changes nothing but leaving `processing` set. Success writes a new index, sets the session chain from it, sets `ready` and clears `processing`. An exception leaves `processing` set |
| App.StreamBotResponse | app.py:109-120 | Exactly one assistant turn is appended and the earlier turns stay. If nothing escapes, the tokens are relayed unchanged and the turn is their concatenation. If an exception escapes, one `Error: ` token follows and the turn holds only that message |
| App.RelayRecordsWhatWasShown | app.py:109-120 | the stored turn is all the relayed text when nothing escaped, and only the final error token otherwise |
| App.Chat | app.py:95-120 | Chat happens only when the index is ready and the input is non-empty; otherwise nothing changes. The transcript grows by the raw user turn and one assistant turn holding all the yielded tokens. The bot is asked the fixed prefix followed by the input. Only the transcript and the bot's chain change |
| App.QuestionIsPrefixedInput | app.py:101-102 | the question sent to the bot is the fixed prefix followed directly by the stored user turn |
| App.Rerun | app.py:29-128 | a reset ends the run with the reset state; otherwise the index after the run is the one the upload block left, and the transcript grows by exactly the question and its answer when the upload block neither stopped nor raised, an index is then ready and the input is non-empty, and stays as it was with no tokens otherwise |
| App.ChatAfterUpload | app.py:67-128 | once the upload block stopped the script (unsupported type) or raised, the run ends with the upload's state and no tokens; otherwise the chat block runs on the upload's state; the index is never touched |
| AppFixes.ResetClearingChain | app.py:30-46 | a reset that also clears `bot.RAG_CHAIN` leaves a coherent, idle state |
| AppFixes.ProcessUploadReleasing | app.py:53-91 | the upload block with `processing` cleared on every exit reports the same event and leaves the same state as the block as written, except that `processing` is cleared once the block ran; an idle state stays idle |
| AppFixes.InitialCoherent | app.py:20-27 | a fresh process is coherent and idle |
| AppFixes.UploadKeepsCoherent | app.py:53-91 | the upload block keeps the chain coherent with the index, as written and corrected |
| AppFixes.ChatKeepsCoherent | utils/bot.py:23-30 | asking keeps the chain coherent, so the chain left after a question was loaded from the index now on disk: a chain is only built from the index on disk |
| AppFixes.RerunFixedKeepsInvariants | app.py:29-128 | one corrected run keeps coherence and idleness |
| AppFixes.RunsStayCoherent | app.py:29-128 | any sequence of corrected runs from a coherent, idle state stays coherent and idle |
| AppFixes.StaleChainAfterReset | app.py:30-34 | as written: upload, ask, reset, upload again, ask leaves index write 1 on disk while the chain from write 0 answers |
| AppFixes.FixedChainFollowsIndex | app.py:30-34 | corrected: the same runs answer from write 1 |
| AppFixes.ProcessingBlocksUploads | app.py:53 | as written: while `processing` is set, every upload is skipped and nothing changes |
| AppFixes.UploadLockedAfterRaise | app.py:53-91 | as written: an unreadable workbook leaves `processing` set, and a readable PDF uploaded next is never indexed |
| AppFixes.FixedUploadAfterRaise | app.py:53-91 | corrected: the same readable PDF is indexed after the failed workbook |

## Left out

- Streamlit rendering and file-system side effects are not modelled: page setup, spinners, `time.sleep`, markdown output, writing the upload to disk, deleting the `uploaded_file` widget key, and removing the upload directory (app.py:14-17, 36-41, 61-65, 96-98, 104-105, 122-125). The upload path is computed from a timestamp parameter, but only as the `source` metadata.
- `st.rerun()` after a reset and `st.stop()` after an unsupported type are modelled as the end of that run. An uncaught exception is modelled the same way.
- `utils/rag.py` is not part of this model. It only configures LangChain and Cohere objects. The 5-turn memory window and the top-3 retriever live inside LangChain classes that are not shown, and the prompt is a constant. A chain is opaque and identified only by the index write it was loaded from.
- `utils/embeddings.py` is not part of this model beyond index presence. FAISS storage is an `Option<nat>`.
  - Indexing failures are assumed to happen before the index is written.
  - Deleting the index on reset always succeeds. The source swallows deletion errors.
  - The empty-documents guard of `create_vector_store` is unreachable from `app.py`, which checks for documents first.
- `RecursiveCharacterTextSplitter` is an uninterpreted function, so no chunk-length or overlap guarantee is claimed. `split_documents` is modelled as copying each document's metadata onto its chunks, which is how LangChain behaves; that library code is not shown.
- Reading workbooks and PDFs (openpyxl, PyMuPDF) and Python's `str()` of cell values are inputs: rendered cell strings or `None`, page strings, or the message the reader raised.
- Cohere embeddings and the language model are opaque. The chain's stream for a question is an input, and so is the message of any exception.
- The non-streaming path of `ask_bot` is not modelled beyond `SelectAnswer`. Because the function contains `yield`, that path returns a generator, not the string.
- App.KindIgnoresCase: only ASCII lower-casing is modelled, not Python's full Unicode `str.lower`. No non-ASCII character lower-cases to one of `.`, `x`, `l`, `s`, `p`, `d`, `f`, so the dispatch is the same.
- App.Extension: follows POSIX `os.path.splitext`, with `/` as the only separator.
- App.Chat: passes the bot's tokens to the wrapper with no escaping exception. `ask_bot` catches every `Exception` (utils/bot.py:22, 39), so none reaches the wrapper's handler at app.py:117. A `BaseException` such as `KeyboardInterrupt` would pass through both handlers and is not modelled. The wrapper's `Error: ` branch is stated in `StreamBotResponse` alone.
- Early abandonment of the token stream is not modelled: `st.write_stream` consumes it fully.
- Concurrency is not modelled because there is none. Sharing `bot.RAG_CHAIN` between browser sessions of one process is also not modelled: the model has one session.
- `App.Initial` starts with no index on disk. A `Finance_index` directory left by an earlier process is covered by the lemmas stated for arbitrary states, but not by the concrete runs.

## Findings

| source | as written | input that shows it | evidently intended | confidence | as-written member | corrected member |
|---|---|---|---|---|---|---|
| app.py:30-34 | "Reset Chat" clears the session's `chain` and deletes the index, but not `bot.RAG_CHAIN`, which is the chain `ask_bot` uses. That chain and its conversation memory survive the reset. | Upload a PDF, ask a question, reset, upload another file, ask again. The answer comes from the chain loaded from the first, deleted index. | A reset also discards the bot's chain, so the next question loads the new index. | medium, not executed | `AppFixes.StaleChainAfterReset` (on `App.Reset`) | `AppFixes.ResetClearingChain`, with `AppFixes.RunsStayCoherent` |
| app.py:53-91 | `processing` is set to True before the file is read and indexed, and is cleared only on handled paths. An exception from openpyxl, PyMuPDF or indexing leaves it True. | Upload an unreadable `.xlsx`, then a readable PDF. The PDF is skipped by the guard at line 53 until a reset. | `processing` is cleared however the block ends. | medium, not executed | `AppFixes.UploadLockedAfterRaise` (on `App.ProcessUpload`) | `AppFixes.ProcessUploadReleasing`, with `AppFixes.FixedUploadAfterRaise` |
