/** The persona (system prompt) selection and the two prompt templates, and the
    chat requests they go into. */
module Prompts {
  import opened Text

  /** The persona used when the user leaves the prompt box blank. */
  const DefaultPartnerPrompt :=
    "あなたは信頼できるパートナーとして、会話の流れを大切にしながら、" +
    "素晴らしい視点には共感を示し、議論に足りない視点には誰もがハッとするような問いをユーモアを交えて提示できます。\n" +
    "問いを出すときは、なぜその問いが必要なのか、答えなければ起こり得るリスクや未来のズレを具体例で示してください。\n" +
    "たとえば「これが話されていないと、後から〇〇で揉める可能性がある」といった視点を添えてください。\n" +
    "問いのトーンは柔らかく、それでいて鋭く。「確かに…それ、大事ですね」と思わせる問いを目指してください。"

  /** `role_prompt`: the stripped user input, or the default persona when that is empty. */
  function RolePrompt(promptInput: string): (r: string)
    ensures r != [] && Trimmed(r)
    ensures r == DefaultPartnerPrompt || exists i :: OccursAt(promptInput, r, i)
  {
    var stripped := Strip(promptInput);
    if stripped != [] then stripped else DefaultPartnerPrompt
  }

  /** White space around a persona typed by the user is dropped. */
  lemma RolePromptIgnoresSurroundingSpace(pre: string, persona: string, suf: string)
    requires AllSpace(pre) && AllSpace(suf)
    requires persona != [] && Trimmed(persona)
    ensures RolePrompt(pre + persona + suf) == persona
  {
    StripUnique(pre, persona, suf);
  }

  /** A blank prompt box (empty or white space only) selects the default persona. */
  lemma RolePromptBlank(promptInput: string)
    requires AllSpace(promptInput)
    ensures RolePrompt(promptInput) == DefaultPartnerPrompt
  {
    assert promptInput == promptInput + [] + [];
    StripUnique(promptInput, [], []);
  }

  /** The labelled sections shared by both templates. */
  const AgendaHeading := "《アジェンダ》\n"
  const TranscriptHeading := "\n\n《文字起こし》\n"

  const SummaryLead :=
    "\n以下は会議の文字起こしです。以下の4点を遵守し、事実のみをビジネス向けの丁寧な文章でまとめてください。\n" +
    "1. 議論のポイントを漏れなく\n2. 読みやすく\n3. 簡潔に\n4. 構造的に\n\n"
  const SummaryTrail := "\n        "

  const SuggestionLead := "\n以下は会議の文字起こしです。\n"
  const SuggestionTrail :=
    "\n\nこの内容をもとに、参加者の気づきを促すような\n- 改善点\n- 問い\n- リスクとその回避策\n\n" +
    "を具体例や理由を添えて、深い共感が得られる形で提案してください。\n        "

  /** A template: fixed lead, agenda section, transcript section, fixed trail. */
  function Template(lead: string, agenda: string, transcript: string, trail: string): string
  {
    lead + AgendaHeading + agenda + TranscriptHeading + transcript + trail
  }

  /** `summary_prompt` */
  function SummaryPrompt(agenda: string, transcript: string): string
  {
    Template(SummaryLead, agenda, transcript, SummaryTrail)
  }

  /** `suggestion_prompt` */
  function SuggestionPrompt(agenda: string, transcript: string): string
  {
    Template(SuggestionLead, agenda, transcript, SuggestionTrail)
  }

  /** Where the agenda starts in a template with the given lead. */
  function AgendaStart(lead: string): nat
  {
    |lead| + |AgendaHeading|
  }

  /** Where the transcript starts in a template with the given lead and agenda. */
  function TranscriptStart(lead: string, agenda: string): nat
  {
    AgendaStart(lead) + |agenda| + |TranscriptHeading|
  }

  /** The agenda sits verbatim right under its heading, the transcript verbatim
      right under its own, and the agenda section comes first. */
  lemma TemplateSections(lead: string, agenda: string, transcript: string, trail: string)
    ensures var p, a, t := Template(lead, agenda, transcript, trail), AgendaStart(lead), TranscriptStart(lead, agenda);
      a + |agenda| <= t && t + |transcript| <= |p| &&
      p[a - |AgendaHeading|..a] == AgendaHeading && p[a..a + |agenda|] == agenda &&
      p[t - |TranscriptHeading|..t] == TranscriptHeading && p[t..t + |transcript|] == transcript
  {
    var p, a, t := Template(lead, agenda, transcript, trail), AgendaStart(lead), TranscriptStart(lead, agenda);
    var x := lead + AgendaHeading;
    var y := x + agenda;
    var z := y + TranscriptHeading;
    var w := z + transcript;
    assert p == w + trail;
    assert p[..|w|] == w;
    assert x[|lead|..] == AgendaHeading;
    assert y[|x|..] == agenda;
    assert z[|y|..] == TranscriptHeading;
    assert w[|z|..] == transcript;
  }

  /** The agenda and transcript can be read back from a template once the
      agenda's length is known: the template loses nothing. */
  lemma {:induction false} TemplateRecovers(lead: string, agenda: string, transcript: string, trail: string,
                                            agenda': string, transcript': string)
    requires Template(lead, agenda, transcript, trail) == Template(lead, agenda', transcript', trail)
    requires |agenda| == |agenda'|
    ensures agenda == agenda' && transcript == transcript'
  {
    TemplateSections(lead, agenda, transcript, trail);
    TemplateSections(lead, agenda', transcript', trail);
  }

  datatype Role = System | User
  datatype Message = Message(role: Role, content: string)
  datatype ChatRequest = ChatRequest(model: string, messages: seq<Message>)

  const ChatModel := "gpt-4o"

  /** The two completion requests the analysis makes, by what they are built from. */
  datatype Request =
    | SummaryRequest(agenda: string, transcript: string)
    | SuggestionRequest(promptInput: string, agenda: string, transcript: string)

  /** The user prompt of a request. */
  function UserPrompt(req: Request): string
  {
    match req
    case SummaryRequest(agenda, transcript) => SummaryPrompt(agenda, transcript)
    case SuggestionRequest(_, agenda, transcript) => SuggestionPrompt(agenda, transcript)
  }

  /** The messages sent for a request: the summary prompt alone, or the persona
      as system message followed by the suggestion prompt. */
  function Render(req: Request): ChatRequest
  {
    match req
    case SummaryRequest(_, _) => ChatRequest(ChatModel, [Message(User, UserPrompt(req))])
    case SuggestionRequest(promptInput, _, _) =>
      ChatRequest(ChatModel, [Message(System, RolePrompt(promptInput)), Message(User, UserPrompt(req))])
  }

  /** Both requests go to the same model and end with the user prompt; only the
      suggestion request carries a system message, and that is the persona. */
  lemma RenderedRequest(req: Request)
    ensures var r := Render(req); var m := r.messages;
      r.model == ChatModel && 1 <= |m| <= 2 && m[|m| - 1] == Message(User, UserPrompt(req)) &&
      (|m| == 2 <==> req.SuggestionRequest?) &&
      (req.SuggestionRequest? ==> m[0] == Message(System, RolePrompt(req.promptInput)))
  {
  }

  /** The lead text of a request's template. */
  function Lead(req: Request): string
  {
    if req.SummaryRequest? then SummaryLead else SuggestionLead
  }

  /** Both user prompts hold the agenda and the transcript verbatim under their
      headings, the agenda first. */
  lemma UserPromptSections(req: Request)
    ensures var p, a, t := UserPrompt(req), AgendaStart(Lead(req)), TranscriptStart(Lead(req), req.agenda);
      a + |req.agenda| <= t && t + |req.transcript| <= |p| &&
      p[a..a + |req.agenda|] == req.agenda && p[t..t + |req.transcript|] == req.transcript
  {
    match req
    case SummaryRequest(agenda, transcript) => TemplateSections(SummaryLead, agenda, transcript, SummaryTrail);
    case SuggestionRequest(_, agenda, transcript) => TemplateSections(SuggestionLead, agenda, transcript, SuggestionTrail);
  }
}
