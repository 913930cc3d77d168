/** One press of the "start analysis" button: the audio-presence guard, then
    transcription, agenda aggregation and the two completions, in that order.
    The speech-to-text and language-model services are inputs; each call made
    to a collaborator is recorded as an effect. */
module Session {
  import opened Foreign
  import opened Agenda
  import opened Prompts

  type Bytes = seq<bv8>

  /** The remote services: Whisper transcription of the uploaded audio, and the
      chat completion of a request (the messages it is sent are `Render(request)`). */
  datatype Services = Services(transcribe: Bytes -> Outcome<string>, complete: Request -> Outcome<string>)

  /** A call made to a collaborator, in the order the run makes them. */
  datatype Effect =
    | Transcribe(model: string, language: string, audio: Bytes)
    | ReadAgendaFile(notice: Notice, file: UploadedFile)
    | Complete(request: Request)

  /** What the run ends with: nothing (button not pressed), the missing-audio
      error, an uncaught exception, or both results. */
  datatype RunResult = Idle | MissingAudio(message: string) | Crashed(exception: string) | Analysed(summary: string, suggestion: string)

  datatype Run = Run(result: RunResult, effects: seq<Effect>)

  const MissingAudioMessage := "音声ファイルをアップロードしてください。"
  const WhisperModel := "whisper-1"
  const TranscriptLanguage := "ja"

  /** The `read_file` calls of the aggregation loop, each with the notice shown before it. */
  function ReadEffects(read: Reader, files: seq<UploadedFile>): (es: seq<Effect>)
    ensures |es| == |AgendaNotices(read, files)|
    ensures forall i :: 0 <= i < |es| ==> es[i] == ReadAgendaFile(AgendaNotices(read, files)[i], Capped(files)[i])
  {
    var n := ReadCount(read, files);
    seq(n, i requires 0 <= i < n => ReadAgendaFile(Loaded(i + 1, files[i].name), files[i]))
  }

  /** The summary completion, then, if it returned, the suggestion completion. */
  function Completions(agenda: string, text: string, promptInput: string, svc: Services): (run: Run)
    ensures 1 <= |run.effects| <= 2 && run.effects[0] == Complete(SummaryRequest(agenda, text))
    ensures |run.effects| == 2 ==> run.effects[1] == Complete(SuggestionRequest(promptInput, agenda, text))
    ensures run.result.Crashed? || run.result.Analysed?
  {
    var summary := SummaryRequest(agenda, text);
    var summaryResult := svc.complete(summary);
    if summaryResult.Raised? then Run(Crashed(summaryResult.exception), [Complete(summary)])
    else
      var suggestion := SuggestionRequest(promptInput, agenda, text);
      var suggestionResult := svc.complete(suggestion);
      if suggestionResult.Raised? then Run(Crashed(suggestionResult.exception), [Complete(summary), Complete(suggestion)])
      else Run(Analysed(summaryResult.value, suggestionResult.value), [Complete(summary), Complete(suggestion)])
  }

  /** The body of `if st.button(...)`, with `read` the per-file extraction
      (the script's is `ReadFile`). */
  function Analyze(pressed: bool, uploadedAudio: Option<Bytes>, promptInput: string,
                   agendaFiles: seq<UploadedFile>, read: Reader, svc: Services): (run: Run)
    ensures !pressed ==> run == Run(Idle, [])
    ensures pressed && uploadedAudio.None? ==> run == Run(MissingAudio(MissingAudioMessage), [])
    ensures run.effects != [] ==>
      uploadedAudio.Some? && run.effects[0] == Transcribe(WhisperModel, TranscriptLanguage, uploadedAudio.value)
    ensures pressed && uploadedAudio.Some? ==> run.effects != [] && (run.result.Crashed? || run.result.Analysed?)
    ensures pressed && uploadedAudio.Some? && svc.transcribe(uploadedAudio.value).Raised? ==>
      run == Run(Crashed(svc.transcribe(uploadedAudio.value).exception),
                 [Transcribe(WhisperModel, TranscriptLanguage, uploadedAudio.value)])
  {
    if !pressed then Run(Idle, [])
    else if uploadedAudio.None? then Run(MissingAudio(MissingAudioMessage), [])
    else
      var transcription := svc.transcribe(uploadedAudio.value);
      var transcribe := Transcribe(WhisperModel, TranscriptLanguage, uploadedAudio.value);
      if transcription.Raised? then Run(Crashed(transcription.exception), [transcribe])
      else
        var readCalls := [transcribe] + ReadEffects(read, agendaFiles);
        var combined := CombinedAgenda(read, agendaFiles);
        if combined.Raised? then Run(Crashed(combined.exception), readCalls)
        else
          var rest := Completions(combined.value, transcription.value, promptInput, svc);
          Run(rest.result, readCalls + rest.effects)
  }

  /** What a collaborator call gives back. */
  function EffectOutcome(read: Reader, svc: Services, e: Effect): Outcome<string>
  {
    match e
    case Transcribe(_, _, audio) => svc.transcribe(audio)
    case ReadAgendaFile(_, f) => read(f)
    case Complete(request) => svc.complete(request)
  }

  /** Once transcription has returned, the run is the transcription, then the
      agenda reads, then completion requests only. */
  lemma AnalyzeShape(uploadedAudio: Option<Bytes>, promptInput: string,
                     agendaFiles: seq<UploadedFile>, read: Reader, svc: Services)
    requires uploadedAudio.Some? && svc.transcribe(uploadedAudio.value).Returned?
    ensures var es, rs := Analyze(true, uploadedAudio, promptInput, agendaFiles, read, svc).effects, ReadEffects(read, agendaFiles);
      1 + |rs| <= |es| && es[..1 + |rs|] == [Transcribe(WhisperModel, TranscriptLanguage, uploadedAudio.value)] + rs &&
      (forall j :: 1 + |rs| <= j < |es| ==> es[j].Complete?) &&
      (|es| > 1 + |rs| ==> CombinedAgenda(read, agendaFiles).Returned?)
  {
    var run := Analyze(true, uploadedAudio, promptInput, agendaFiles, read, svc);
    var rs := ReadEffects(read, agendaFiles);
    var head := [Transcribe(WhisperModel, TranscriptLanguage, uploadedAudio.value)] + rs;
    var combined := CombinedAgenda(read, agendaFiles);
    if combined.Returned? {
      var rest := Completions(combined.value, svc.transcribe(uploadedAudio.value).value, promptInput, svc);
      assert run.effects == head + rest.effects;
      assert run.effects[..|head|] == head;
      assert forall j :: |head| <= j < |run.effects| ==> run.effects[j] == rest.effects[j - |head|];
    } else {
      assert run.effects == head;
    }
  }

  /** Only the first ten uploads are ever handed to `read`, each announced
      with its 1-based position, in upload order. */
  lemma ReadsOnlyFirstTen(pressed: bool, uploadedAudio: Option<Bytes>, promptInput: string,
                          agendaFiles: seq<UploadedFile>, read: Reader, svc: Services, i: nat)
    requires i < |Analyze(pressed, uploadedAudio, promptInput, agendaFiles, read, svc).effects|
    requires Analyze(pressed, uploadedAudio, promptInput, agendaFiles, read, svc).effects[i].ReadAgendaFile?
    ensures 1 <= i <= MaxAgendaFiles && i <= |agendaFiles|
    ensures Analyze(pressed, uploadedAudio, promptInput, agendaFiles, read, svc).effects[i] ==
            ReadAgendaFile(Loaded(i, agendaFiles[i - 1].name), agendaFiles[i - 1])
  {
    AnalyzeShape(uploadedAudio, promptInput, agendaFiles, read, svc);
    var es := Analyze(pressed, uploadedAudio, promptInput, agendaFiles, read, svc).effects;
    var rs := ReadEffects(read, agendaFiles);
    assert es[..1 + |rs|][i] == es[i];
  }

  /** The agenda reads of a run: all but the last return; the last one returns
      too unless the aggregation raised, in which case it raised that exception. */
  lemma ReadEffectsOutcomes(read: Reader, svc: Services, files: seq<UploadedFile>)
    ensures var rs, combined := ReadEffects(read, files), CombinedAgenda(read, files);
      (forall i :: 0 <= i < |rs| - 1 ==> EffectOutcome(read, svc, rs[i]).Returned?) &&
      (combined.Returned? ==> forall i :: 0 <= i < |rs| ==> EffectOutcome(read, svc, rs[i]).Returned?) &&
      (combined.Raised? ==> rs != [] && EffectOutcome(read, svc, rs[|rs| - 1]) == combined)
  {
    var rs := ReadEffects(read, files);
    var fs := Capped(files);
    var k := FirstFailure(read, fs);
    forall i | 0 <= i < |rs| && i < k
      ensures EffectOutcome(read, svc, rs[i]).Returned?
    {
      assert rs[i].file == fs[i];
    }
  }

  /** No exception is caught: every call but the last one returned, a crash
      carries the exception of the last call, and a finished run's results are
      what its last two calls returned. */
  predicate FailsFast(read: Reader, svc: Services, run: Run)
  {
    var es := run.effects;
    (forall i :: 0 <= i < |es| - 1 ==> EffectOutcome(read, svc, es[i]).Returned?) &&
    (run.result.Crashed? ==> es != [] && EffectOutcome(read, svc, es[|es| - 1]) == Raised(run.result.exception)) &&
    (run.result.Analysed? ==>
      |es| >= 2 && EffectOutcome(read, svc, es[|es| - 2]) == Returned(run.result.summary) &&
      EffectOutcome(read, svc, es[|es| - 1]) == Returned(run.result.suggestion))
  }

  /** The completion calls fail fast: the suggestion is requested only after
      the summary returned. */
  lemma CompletionsFailFast(agenda: string, text: string, promptInput: string, read: Reader, svc: Services)
    ensures FailsFast(read, svc, Completions(agenda, text, promptInput, svc))
  {
  }

  /** A run whose transcription returned and whose aggregation raised stops at
      the failing read. */
  lemma ReadFailureEndsRun(uploadedAudio: Option<Bytes>, promptInput: string,
                           agendaFiles: seq<UploadedFile>, read: Reader, svc: Services)
    requires uploadedAudio.Some? && svc.transcribe(uploadedAudio.value).Returned?
    requires CombinedAgenda(read, agendaFiles).Raised?
    ensures FailsFast(read, svc, Analyze(true, uploadedAudio, promptInput, agendaFiles, read, svc))
  {
    var rs := ReadEffects(read, agendaFiles);
    var head := [Transcribe(WhisperModel, TranscriptLanguage, uploadedAudio.value)] + rs;
    ReadEffectsOutcomes(read, svc, agendaFiles);
    assert forall i :: 1 <= i < |head| ==> head[i] == rs[i - 1];
    assert Analyze(true, uploadedAudio, promptInput, agendaFiles, read, svc) ==
      Run(Crashed(CombinedAgenda(read, agendaFiles).exception), head);
  }

  /** A run whose reads all returned goes on to the completions, which fail fast. */
  lemma CompletionsEndRun(uploadedAudio: Option<Bytes>, promptInput: string,
                          agendaFiles: seq<UploadedFile>, read: Reader, svc: Services)
    requires uploadedAudio.Some? && svc.transcribe(uploadedAudio.value).Returned?
    requires CombinedAgenda(read, agendaFiles).Returned?
    ensures FailsFast(read, svc, Analyze(true, uploadedAudio, promptInput, agendaFiles, read, svc))
  {
    var run := Analyze(true, uploadedAudio, promptInput, agendaFiles, read, svc);
    var es := run.effects;
    var rs := ReadEffects(read, agendaFiles);
    var head := [Transcribe(WhisperModel, TranscriptLanguage, uploadedAudio.value)] + rs;
    var text := svc.transcribe(uploadedAudio.value).value;
    var rest := Completions(CombinedAgenda(read, agendaFiles).value, text, promptInput, svc);
    ReadEffectsOutcomes(read, svc, agendaFiles);
    CompletionsFailFast(CombinedAgenda(read, agendaFiles).value, text, promptInput, read, svc);
    assert forall i :: 1 <= i < |head| ==> head[i] == rs[i - 1];
    assert run == Run(rest.result, head + rest.effects);
    assert forall i :: 0 <= i < |head| ==> es[i] == head[i];
    assert forall i :: 0 <= i < |rest.effects| ==> es[|head| + i] == rest.effects[i];
  }

  /** Every run fails fast. */
  lemma FailFast(pressed: bool, uploadedAudio: Option<Bytes>, promptInput: string,
                 agendaFiles: seq<UploadedFile>, read: Reader, svc: Services)
    ensures FailsFast(read, svc, Analyze(pressed, uploadedAudio, promptInput, agendaFiles, read, svc))
  {
    if pressed && uploadedAudio.Some? && svc.transcribe(uploadedAudio.value).Returned? {
      if CombinedAgenda(read, agendaFiles).Returned? {
        CompletionsEndRun(uploadedAudio, promptInput, agendaFiles, read, svc);
      } else {
        ReadFailureEndsRun(uploadedAudio, promptInput, agendaFiles, read, svc);
      }
    }
  }

  /** A finished run made exactly these calls: transcription, then one read per
      agenda file among the first ten, then the summary request, then the
      suggestion request, both over the combined agenda and the transcript. */
  lemma AnalysedRun(uploadedAudio: Option<Bytes>, promptInput: string,
                    agendaFiles: seq<UploadedFile>, read: Reader, svc: Services)
    requires Analyze(true, uploadedAudio, promptInput, agendaFiles, read, svc).result.Analysed?
    ensures uploadedAudio.Some? && svc.transcribe(uploadedAudio.value).Returned?
    ensures CombinedAgenda(read, agendaFiles).Returned?
    ensures var text, agenda := svc.transcribe(uploadedAudio.value).value, CombinedAgenda(read, agendaFiles).value;
      var es := Analyze(true, uploadedAudio, promptInput, agendaFiles, read, svc).effects;
      |es| == |Capped(agendaFiles)| + 3 &&
      es[|es| - 2] == Complete(SummaryRequest(agenda, text)) &&
      es[|es| - 1] == Complete(SuggestionRequest(promptInput, agenda, text))
  {
    var combined := CombinedAgenda(read, agendaFiles);
    assert combined.Returned?;
    var text := svc.transcribe(uploadedAudio.value).value;
    var rest := Completions(combined.value, text, promptInput, svc);
    assert |rest.effects| == 2;
  }

  /** When every call returns, the run ends with both results: the summary and
      the suggestion the two completions gave. */
  lemma EveryCallReturns(uploadedAudio: Option<Bytes>, promptInput: string,
                         agendaFiles: seq<UploadedFile>, read: Reader, svc: Services)
    requires uploadedAudio.Some? && svc.transcribe(uploadedAudio.value).Returned?
    requires AllRead(read, Capped(agendaFiles))
    requires var text, agenda := svc.transcribe(uploadedAudio.value).value, CombinedAgenda(read, agendaFiles).value;
      svc.complete(SummaryRequest(agenda, text)).Returned? &&
      svc.complete(SuggestionRequest(promptInput, agenda, text)).Returned?
    ensures var text, agenda := svc.transcribe(uploadedAudio.value).value, CombinedAgenda(read, agendaFiles).value;
      Analyze(true, uploadedAudio, promptInput, agendaFiles, read, svc).result ==
      Analysed(svc.complete(SummaryRequest(agenda, text)).value,
               svc.complete(SuggestionRequest(promptInput, agenda, text)).value)
  {
  }
}
