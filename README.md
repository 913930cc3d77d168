# GPT Meeting Assistant — a Dafny model of its analysis core

The meeting assistant is a single Streamlit script, `app.py`. The user uploads
a meeting recording, types an optional persona prompt, and attaches agenda
documents. Pressing "分析を開始" then runs these steps:

1. The script checks that audio is present.
2. Whisper transcribes the audio (language `ja`).
3. `read_file` turns each of the first ten agenda files into text, chosen by
   its declared MIME type. The texts are joined with a blank line.
4. The persona is the stripped prompt, or a fixed "partner" persona when that
   is blank.
5. `gpt-4o` is asked for a summary, then for suggestions, each from a template
   that embeds the agenda and the transcript.

The project models that core in five modules, one per file:

- `foreign.dfy` (`Foreign`): a foreign call either returns or raises
  (`Outcome`). Nothing in the script catches, so a raise ends the run.
- `text.dfy` (`Text`): Python's `sep.join(parts)` and `s.strip()`.
  - `Strip` uses the exact `str.isspace` character set.
  - Each function has an element-wise characterisation.
- `agenda.dfy` (`Agenda`): the `read_file` MIME dispatch and the aggregation
  loop.
  - The loop is a method over the accumulated texts.
  - It is proved equal to a join-of-map specification, `CombinedAgenda`.
- `prompts.dfy` (`Prompts`): persona selection, the two templates (with their
  real wording), and the two chat requests.
- `session.dfy` (`Session`): one press of the button. It gives the result and
  the ordered list of collaborator calls made.

Foreign code is modelled by what it gives back, not by how it works:

- Each document library's reading of a file is an `Outcome` carried by the
  uploaded file (`Readings`).
- The Whisper and chat services are functions passed in (`Services`).
- The per-file extraction of the session is a parameter `read` as well, so
  every session property holds for any extraction. The script's own
  extraction is `Agenda.ReadFile`.

## Model

| member | source | states |
|---|---|---|
| Agenda.Classify | app.py:24-43 | The category is the one branch whose MIME list holds the declared type. The lists are disjoint, so no type belongs to two branches. |
| Agenda.ReadFile | app.py:23-44 | Each listed type goes to its own library: a docx gives mammoth's text, `text/plain` the UTF-8 decoding, an xlsx the pandas table text, and an image the Japanese OCR text, each with that library's exception if it raises. A PDF gives the text of its non-empty pages joined by newlines, or the PDF reader's exception. An unlisted type returns the fixed unsupported notice as a normal value, never an exception. |
| Agenda.OfficeTypesUnsupported | app.py:25-44 | Word `.doc`, Excel `.xls` and PowerPoint `.ppt`/`.pptx` types get the unsupported notice. |
| Agenda.ReadFileIgnoresName | app.py:24 | Dispatch depends on the declared type only, never on the file name. |
| Agenda.PdfText | app.py:34 | The PDF branch's text: the pages kept by `NonEmptyPages`, joined by `"\n"`. It is characterised by `EmptyPageInvisible`, `PdfTextAllPages` and `PdfTextBlank`, and through `NonEmptyPagesConcat`. |
| Agenda.NonEmptyPages | app.py:34 | Keeps only pages with text, and every page it keeps is one of the input pages. A single page is kept exactly when it has text. Nothing changes when every page has text. With `NonEmptyPagesConcat`, this fixes the result as the pages with text, in page order. |
| Agenda.NonEmptyPagesConcat | app.py:34 | Filtering the pages of two page lists one after the other gives the filtered first list followed by the filtered second list. |
| Agenda.EmptyPageInvisible | app.py:34 | An empty page adds nothing to the PDF text, not even a separator. |
| Agenda.PdfTextAllPages | app.py:34 | When every page has text, the PDF text is all pages joined by newlines. |
| Agenda.PdfTextBlank | app.py:34 | A PDF without page text reads as the empty string. |
| Agenda.Capped | app.py:91 | `agenda_files[:10]` is a prefix of the uploads of length at most ten, and the whole list when it has ten or fewer. |
| Agenda.CappedLength | app.py:91 | `agenda_files[:10]` holds exactly min(n, 10) files. |
| Agenda.FirstFailure | app.py:91-93 | Gives the position of the first file whose extraction raises: every file before it returns. |
| Agenda.FirstFailureAt | app.py:91-93 | A file that raises after a run of returning files is the first failure. |
| Agenda.Texts | app.py:93 | The extracted texts, one per file, in upload order. |
| Agenda.CombinedAgenda | app.py:89-94 | `combined_agenda` exists exactly when all of the first ten files read. It is `""` with no files. Otherwise the run raises the exception of one of the first ten files, and every file before that one read. |
| Agenda.ReadCount | app.py:91-93 | The number of files handed to `read_file`. It is all of the first ten when they all return, else up to and including the first failing one: every file before it returned, and its exception is the run's. |
| Agenda.AggregateAgenda | app.py:89-94 | The loop with its list append. Its result equals `CombinedAgenda`, and its progress notices equal `AgendaNotices`: one per file read, with 1-based position and name, including a file that then raises. |
| Agenda.AgendaNotices | app.py:92 | The `st.success` notices of a run: one per file handed to `read_file`, giving its 1-based position and its name. `AggregateAgenda` is proved to emit exactly these, and `ReadsOnlyFirstTen` shows they cover only the first ten uploads. |
| Agenda.TextsSnoc | app.py:93 | Appending a returned text extends the texts by that text. |
| Agenda.AgendaNoticesAt | app.py:92 | Notices written position by position are the run's notices. |
| Agenda.StopsAtFailure | app.py:91-93 | A loop that stops at the first file that raises has announced every file up to and including that one, and ends with that file's exception. |
| Agenda.FinishesWithJoin | app.py:91-94 | A loop that read every capped file has announced each one, and `combined_agenda` is the join of their texts. |
| Agenda.CombinedAgendaJoins | app.py:94 | When nothing raises, `combined_agenda` is the extracted texts joined with `"\n\n"`. |
| Agenda.AgendaTextsInOrder | app.py:89-94 | Each text appears verbatim at its offset in `combined_agenda`, in upload order, with exactly one blank line before the next text. |
| Agenda.SingleAgendaFile | app.py:94 | With one agenda file, the combined agenda is that file's text, with no separator. |
| Agenda.IgnoresFilesBeyondTenth | app.py:91 | Files after the tenth change neither the capped list of files that may be read, nor the combined agenda, nor the notices. |
| Text.Join | app.py:94 | Python's `sep.join(parts)`, also used by the PDF branch (app.py:34). It is characterised by `JoinLength`, `JoinPlaces` and `JoinSeparates`: each part appears verbatim at its offset, with exactly the separator between neighbours and nothing after the last part. |
| Text.PartOffsetInit | app.py:94 | The offset of an early part does not depend on later parts. |
| Text.JoinLength | app.py:94 | A joined string ends right after its last part. |
| Text.JoinPlaces | app.py:94 | Every part of a join appears verbatim at its offset. |
| Text.JoinSeparates | app.py:94 | Between consecutive parts of a join lies exactly the separator. |
| Text.SkipSpace | app.py:106 | Skips exactly the leading white space. |
| Text.SkipSpaceBack | app.py:106 | Skips exactly the trailing white space. |
| Text.Strip | app.py:106 | `strip()` gives an infix of the input with no white space at either end, surrounded only by white space. |
| Text.StripUnique | app.py:106 | Any white space around a core with no white space at its ends is removed, leaving exactly that core. |
| Text.StripIdempotent | app.py:106 | Stripping twice is stripping once. |
| Prompts.RolePrompt | app.py:99-106 | The persona is never empty and has no white space at either end. It is the default persona or text taken from the user's input. |
| Prompts.RolePromptIgnoresSurroundingSpace | app.py:106 | A typed persona is used exactly, without the white space around it. |
| Prompts.RolePromptBlank | app.py:106 | An empty or all-white-space prompt selects the default persona. |
| Prompts.SummaryPrompt | app.py:112-124 | `summary_prompt`: the fixed instructions, the agenda heading and agenda, the transcript heading and transcript, then the trailing indentation. `TemplateSections` and `UserPromptSections` characterise it. |
| Prompts.SuggestionPrompt | app.py:135-149 | `suggestion_prompt`: the fixed lead, the agenda and transcript sections, then the closing request for suggestions. `TemplateSections` and `UserPromptSections` characterise it. |
| Prompts.TemplateSections | app.py:112-124 | The agenda sits verbatim under its heading and the transcript verbatim under its own, with the agenda first. |
| Prompts.TemplateRecovers | app.py:112-124 | A template loses nothing: given the agenda's length, the agenda and transcript can be read back. |
| Prompts.UserPromptSections | app.py:112-149 | Both the summary and suggestion prompts hold the agenda and the transcript verbatim, with the agenda first. |
| Prompts.Render | app.py:125-156 | The `messages` list of each completion call: the summary prompt alone as a user message, or the persona as system message followed by the suggestion prompt. `RenderedRequest` characterises it. |
| Prompts.RenderedRequest | app.py:125-156 | Both requests go to `gpt-4o` and end with the user prompt. Only the suggestion request has a system message, and it is the persona. |
| Session.ReadEffects | app.py:91-93 | The reads of a run are the capped files in upload order, each paired with the notice the aggregation loop `AggregateAgenda` shows for it (`AgendaNotices`). |
| Session.Completions | app.py:125-157 | The summary request comes first. The suggestion request follows only as the second call. |
| Session.Analyze | app.py:63-84 | Not pressed: nothing happens. Pressed without audio: the error message only, and no transcription, extraction or completion. Pressed with audio: the run never shows the missing-audio error, calls Whisper first, and ends either crashed or with both results. A transcription that raises ends the run right there, with that exception and no other call. |
| Session.AnalyzeShape | app.py:77-157 | After transcription returns, the run is the transcription, then the agenda reads, then completion requests only. Completions happen only when the aggregation returned. |
| Session.ReadsOnlyFirstTen | app.py:91-93 | Any read in a run is of one of the first ten uploads, at its upload position, with its notice. |
| Session.ReadEffectsOutcomes | app.py:91-93 | All reads but the last return. The last one raises exactly when the aggregation raised, and with its exception. |
| Session.CompletionsFailFast | app.py:125-157 | The suggestion is requested only after the summary returned. A crash carries the failing request's exception. |
| Session.ReadFailureEndsRun | app.py:89-94 | A read that raises ends the run with its exception, and every earlier call returned. |
| Session.CompletionsEndRun | app.py:125-157 | Once the reads return, the completions decide the run, and every earlier call returned. |
| Session.FailFast | app.py:63-157 | Every run: all calls but the last returned, a crash carries the last call's exception, and a finished run's summary and suggestion are what its last two calls returned. |
| Session.EveryCallReturns | app.py:77-157 | When the transcription, every read and both completions return, the run ends with both results: the summary and the suggestion that the two completions returned. |
| Session.AnalysedRun | app.py:77-157 | A finished run transcribed, read all of the first ten files, then made exactly the summary request and the suggestion request, over that agenda and transcript. |

## Left out

- Streamlit presentation is not modelled: the title, the widgets, `st.info`, the final success banner, `st.write` and `st.subheader`. The per-file `st.success` notice is kept, as `Notice`.
- `get_download_button` (base64 plus an HTML link) has no logic of its own and is not modelled.
- The OpenAI calls are functions passed in (`Services`). No network behaviour is modelled.
- The API key setup (`openai.api_key` read from the app secrets) is not modelled; it has no logic of its own.
- `Services.complete` is given the request by what it is built from (`Prompts.Request`). The exact messages it sends are `Prompts.Render`.
- The Whisper response is modelled as the transcript string (`transcription["text"]`).
- The completion response is modelled as `choices[0].message.content`. A response of another shape is not modelled.
- The document libraries are not modelled; each one's reading of a file is an input (`Readings`). These are mammoth, PyPDF2, UTF-8 decoding, pandas `read_excel`/`to_string` and PIL with pytesseract.
- PDF page text that is `None` is modelled as the empty string, since `if page.extract_text()` discards both.
- Temporary files are not modelled, for either the docx or the audio. The script creates them with `delete=False` and never removes them. This is filesystem I/O.
- Reading the audio bytes (`uploaded_audio.read()`) is treated as returning the upload's bytes.
- The session properties are stated for every per-file extraction `read`. The script's extraction is `Agenda.ReadFile`, so they hold for it too.
- A reader might expect these behaviours, but `app.py` does not have them, so the model does not either:
  - Matching on the file extension. Dispatch uses the declared MIME type only.
  - Branches for `.doc`, `.ppt`/`.pptx` and `.xls` files.
  - Turning an extraction error into a placeholder. The error propagates and ends the run, and no later file is read.
  - Deleting the temporary files.
  - Caching results across re-renders.
  - Showing the summary when the suggestion call raises.
