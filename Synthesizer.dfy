/** The synthesis engine (src/utils/Synthesizer.ts): filtering the model
    responses of one round, the three merge modes, the system and user
    prompts, the merge request, the mapping of its outcome to the final text,
    the offline fallback and the response quality score.

    The merge call `this.api.chatCompletion` is injected as a function `api`
    from the request to its `Outcome`; the result of a round records the
    requests it issued, so "no API call" is `calls == []`. */
module Synthesizer {
  import opened Wrappers
  import opened Strings
  import opened Folds
  import opened Types

  const NoResponsesMessage := "응답을 받지 못했습니다."
  const NoCompletedMessage := "완료된 응답이 없습니다."

  // ---------------------------------------------------------------------
  // Filtering

  /** A response takes part in the merge when it is completed and its
      trimmed content is non-empty. */
  predicate IsUsable(r: ModelResponse) {
    r.isCompleted && Trim(r.content) != ""
  }

  /** `responses.filter(r => r.isCompleted && r.content.trim())`. */
  function Completed(responses: seq<ModelResponse>): (r: seq<ModelResponse>)
    ensures |r| <= |responses|
    ensures forall k :: 0 <= k < |r| ==> IsUsable(r[k]) && r[k] in responses
    ensures forall x :: x in responses && IsUsable(x) ==> x in r
    decreases |responses|
  {
    if |responses| == 0 then []
    else (if IsUsable(responses[0]) then [responses[0]] else []) + Completed(responses[1..])
  }

  /** The filter keeps the original relative order: filtering a concatenation
      is concatenating the filtered parts. */
  lemma {:induction false} CompletedAppend(a: seq<ModelResponse>, b: seq<ModelResponse>)
    ensures Completed(a + b) == Completed(a) + Completed(b)
    decreases |a|
  {
    if |a| == 0 {
      assert a + b == b;
    } else {
      assert (a + b)[1..] == a[1..] + b;
      CompletedAppend(a[1..], b);
    }
  }

  /** A response is usable exactly when it is completed and its content is
      not all whitespace. */
  lemma UsableIffNotBlank(r: ModelResponse)
    ensures IsUsable(r) <==> r.isCompleted && !IsBlank(r.content)
  {
    TrimEmptyIffBlank(r.content);
  }

  // ---------------------------------------------------------------------
  // Modes

  datatype Mode = Union | Intersection | Selective

  /** The `switch (config.mode)` of `synthesize`: any value other than the
      three known names is treated as union. */
  function ModeOf(mode: string): (m: Mode)
    ensures m == Intersection <==> mode == "intersection"
    ensures m == Selective <==> mode == "selective"
  {
    if mode == "union" then Union
    else if mode == "intersection" then Intersection
    else if mode == "selective" then Selective
    else Union
  }

  /** The mode name each `synthesize*` method passes to `getSystemPrompt` and
      `fallbackSynthesis`. */
  function ModeName(m: Mode): (s: string)
    ensures ModeOf(s) == m
  {
    match m
    case Union => "union"
    case Intersection => "intersection"
    case Selective => "selective"
  }

  /** The fixed sampling temperature of each mode's merge request. */
  function Temperature(m: Mode): real {
    match m
    case Union => 0.3
    case Intersection => 0.2
    case Selective => 0.4
  }

  /** The threshold of intersection mode: `config.intersectionThreshold` when
      it is present and non-zero (a falsy 0 or a missing value falls through),
      otherwise `max(2, ceil(n / 2))`, the least value that is at least 2 and
      at least half of n. */
  function Threshold(config: SynthesizerConfig, n: nat): (t: int)
    ensures config.intersectionThreshold.Some? && config.intersectionThreshold.value != 0
      ==> t == config.intersectionThreshold.value
    ensures config.intersectionThreshold.None? || config.intersectionThreshold.value == 0
      ==> t >= 2 && 2 * t >= n && (t == 2 || 2 * (t - 1) < n)
  {
    if config.intersectionThreshold.Some? && config.intersectionThreshold.value != 0 then
      config.intersectionThreshold.value
    else
      var half := (n + 1) / 2;
      if half < 2 then 2 else half
  }

  /** The derived threshold for one, three and five responses. */
  lemma ThresholdExamples(config: SynthesizerConfig)
    requires config.intersectionThreshold.None?
    ensures Threshold(config, 1) == 2
    ensures Threshold(config, 3) == 2
    ensures Threshold(config, 5) == 3
  {
  }

  // ---------------------------------------------------------------------
  // System prompts

  const BasePrompt := "당신은 여러 AI 모델의 응답을 통합하는 전문가입니다. 한국어로 응답해주세요."

  const UnionRules :=
    "합집합 모드에서는 다음 규칙을 따라주세요:\n"
    + "1. 모든 응답의 정보를 포함하되, 중복되는 내용은 제거하세요\n"
    + "2. 서로 다른 관점이나 접근법이 있다면 모두 포함하세요\n"
    + "3. 정보의 정확성을 검증하고, 상충하는 내용이 있다면 명시하세요\n"
    + "4. 체계적이고 읽기 쉽게 정리하세요"

  const IntersectionRules :=
    "교집합 모드에서는 다음 규칙을 따라주세요:\n"
    + "1. 지정된 수 이상의 모델이 공통으로 언급하는 내용만 포함하세요\n"
    + "2. 공통 내용이 부족하다면 그 사실을 명시하세요\n"
    + "3. 신뢰성이 높은 핵심 정보에 집중하세요\n"
    + "4. 간결하고 정확하게 정리하세요"

  const SelectiveRules :=
    "선별 모드에서는 다음 규칙을 따라주세요:\n"
    + "1. 가장 가치 있고 정확한 정보만 선별하세요\n"
    + "2. 질문에 가장 직접적으로 답하는 내용을 우선하세요\n"
    + "3. 불확실하거나 중요도가 낮은 정보는 제외하세요\n"
    + "4. 실용적이고 유용한 답변을 제공하세요"

  /** `getSystemPrompt(mode)`: the base prompt, then a blank line and the
      mode's rules; an unknown name gets the base prompt alone. */
  function SystemPrompt(mode: string): (r: string)
    ensures StartsWith(r, BasePrompt)
    ensures mode !in {"union", "intersection", "selective"} ==> r == BasePrompt
  {
    if mode == "union" then BasePrompt + "\n\n" + UnionRules
    else if mode == "intersection" then BasePrompt + "\n\n" + IntersectionRules
    else if mode == "selective" then BasePrompt + "\n\n" + SelectiveRules
    else BasePrompt
  }

  /** The three modes are told apart by their system prompts. */
  lemma SystemPromptsDiffer(m1: Mode, m2: Mode)
    requires m1 != m2
    ensures SystemPrompt(ModeName(m1)) != SystemPrompt(ModeName(m2))
  {
    var p1, p2 := SystemPrompt(ModeName(m1)), SystemPrompt(ModeName(m2));
    var k := |BasePrompt| + 2;
    assert p1[k] != p2[k];
  }

  // ---------------------------------------------------------------------
  // User prompts

  /** The opening of every user prompt: the quoted question, then the
      response-count line. */
  function PromptHead(question: string, n: nat): string {
    "원본 질문: \"" + question + "\"\n\n"
    + "다음은 " + NatToString(n) + "개의 AI 모델이 제공한 응답들입니다:\n\n"
  }

  /** The block of one response: `=== name (id) ===`, the content, a blank
      line. */
  function ResponseBlock(r: ModelResponse): string {
    "=== " + r.modelName + " (" + r.modelId + ") ===\n" + r.content + "\n\n"
  }

  const UnionClosing :=
    "위 응답들을 합집합 방식으로 통합해주세요. 모든 유용한 정보를 포함하되 중복은 제거하고, 체계적으로 정리해주세요."

  const SelectiveClosing :=
    "위 응답들에서 가장 정확하고 가치 있는 정보만을 선별하여 최고 품질의 답변을 만들어주세요. 질문에 가장 직접적이고 실용적인 답변을 제공해주세요."

  /** The closing sentence of intersection mode, which names the threshold. */
  function IntersectionClosing(threshold: int): string {
    "위 응답들에서 최소 " + IntToString(threshold) + "개 이상의 모델이 공통으로 언급하는 내용만을 추출하여 통합해주세요."
  }

  /** The closing sentence for a mode; only intersection looks at the
      threshold. */
  function Closing(m: Mode, threshold: int): string {
    match m
    case Union => UnionClosing
    case Intersection => IntersectionClosing(threshold)
    case Selective => SelectiveClosing
  }

  /** A user prompt: head, one block per response in order, closing. */
  function UserPrompt(responses: seq<ModelResponse>, question: string, closing: string): string {
    PromptHead(question, |responses|) + ConcatMap(responses, ResponseBlock) + closing
  }

  /** The i-th response's block sits right after the blocks of the responses
      before it, which follow the head. */
  lemma UserPromptLayout(responses: seq<ModelResponse>, question: string, closing: string, i: int)
    requires 0 <= i < |responses|
    ensures UserPrompt(responses, question, closing)
      == PromptHead(question, |responses|) + ConcatMap(responses[..i], ResponseBlock)
         + ResponseBlock(responses[i]) + ConcatMap(responses[i + 1..], ResponseBlock) + closing
  {
    ConcatMapAt(responses, i, ResponseBlock);
  }

  /** The count line states the number of responses: the count can be read
      back from the prompt head. */
  lemma PromptHeadCount(question: string, n1: nat, n2: nat)
    requires PromptHead(question, n1) == PromptHead(question, n2)
    ensures n1 == n2
  {
    var p := "원본 질문: \"" + question + "\"\n\n" + "다음은 ";
    var q := "개의 AI 모델이 제공한 응답들입니다:\n\n";
    assert PromptHead(question, n1) == p + NatToString(n1) + q;
    assert PromptHead(question, n2) == p + NatToString(n2) + q;
    CancelAround(p, NatToString(n1), NatToString(n2), q);
    NatToStringInjective(n1, n2);
  }

  /** Only the intersection closing depends on the threshold, and it does so
      faithfully: different thresholds give different closings. */
  lemma ClosingThreshold(m: Mode, t1: int, t2: int)
    ensures m != Intersection ==> Closing(m, t1) == Closing(m, t2)
    ensures m == Intersection && t1 != t2 ==> Closing(m, t1) != Closing(m, t2)
  {
    if m == Intersection && Closing(m, t1) == Closing(m, t2) {
      CancelAround("위 응답들에서 최소 ", IntToString(t1), IntToString(t2),
        "개 이상의 모델이 공통으로 언급하는 내용만을 추출하여 통합해주세요.");
      IntToStringInjective(t1, t2);
    }
  }

  /** The `forEach` loop shared by the three `create*Prompt` functions:
      appends each response's block to `prompt`, in order. */
  method AppendResponseBlocks(prompt: string, responses: seq<ModelResponse>) returns (p: string)
    ensures p == prompt + ConcatMap(responses, ResponseBlock)
  {
    p := prompt;
    var i := 0;
    while i < |responses|
      invariant 0 <= i <= |responses|
      invariant p == prompt + ConcatMap(responses[..i], ResponseBlock)
    {
      assert responses[..i + 1][..i] == responses[..i];
      p := p + ("=== " + responses[i].modelName + " (" + responses[i].modelId + ") ===\n");
      p := p + (responses[i].content + "\n\n");
      i := i + 1;
    }
    assert responses[..i] == responses;
  }

  /** `createUnionPrompt`. */
  method CreateUnionPrompt(responses: seq<ModelResponse>, question: string) returns (prompt: string)
    ensures prompt == UserPrompt(responses, question, UnionClosing)
  {
    prompt := "원본 질문: \"" + question + "\"\n\n";
    prompt := prompt + ("다음은 " + NatToString(|responses|) + "개의 AI 모델이 제공한 응답들입니다:\n\n");
    prompt := AppendResponseBlocks(prompt, responses);
    prompt := prompt + UnionClosing;
  }

  /** `createIntersectionPrompt`. */
  method CreateIntersectionPrompt(responses: seq<ModelResponse>, question: string, threshold: int)
    returns (prompt: string)
    ensures prompt == UserPrompt(responses, question, IntersectionClosing(threshold))
  {
    prompt := "원본 질문: \"" + question + "\"\n\n";
    prompt := prompt + ("다음은 " + NatToString(|responses|) + "개의 AI 모델이 제공한 응답들입니다:\n\n");
    prompt := AppendResponseBlocks(prompt, responses);
    prompt := prompt + IntersectionClosing(threshold);
  }

  /** `createSelectivePrompt`. */
  method CreateSelectivePrompt(responses: seq<ModelResponse>, question: string) returns (prompt: string)
    ensures prompt == UserPrompt(responses, question, SelectiveClosing)
  {
    prompt := "원본 질문: \"" + question + "\"\n\n";
    prompt := prompt + ("다음은 " + NatToString(|responses|) + "개의 AI 모델이 제공한 응답들입니다:\n\n");
    prompt := AppendResponseBlocks(prompt, responses);
    prompt := prompt + SelectiveClosing;
  }

  // ---------------------------------------------------------------------
  // Offline fallback

  const IntersectionNotice := "공통 내용을 자동으로 찾을 수 없어 모든 응답을 제공합니다:\n\n"
  const SelectiveNotice := "자동 선별이 실패하여 첫 번째 응답을 제공합니다:\n\n"

  /** `[mode 모드 - 기본 통합]` and a blank line. */
  function FallbackHeader(mode: string): string {
    "[" + mode + " 모드 - 기본 통합]\n\n"
  }

  /** The block of one response in the fallback text. */
  function FallbackBlock(r: ModelResponse): string {
    "**" + r.modelName + "의 응답:**\n" + r.content + "\n\n"
  }

  /** `responses[0]?.content` as string concatenation sees it: JavaScript
      turns a missing first response into the text "undefined". */
  function FirstContent(responses: seq<ModelResponse>): string {
    if |responses| > 0 then responses[0].content else "undefined"
  }

  /** `fallbackSynthesis(responses, mode)`. In selective mode the result is
      `header + notice + first content`, which ends the function; the `||`
      default after it never applies, because that concatenation is never
      empty. Otherwise the header (and in intersection mode its notice) is
      followed by one block per response. */
  function Fallback(responses: seq<ModelResponse>, mode: string): (r: string)
    ensures StartsWith(r, FallbackHeader(mode))
    ensures r != ""
  {
    if mode == "selective" then
      FallbackHeader(mode) + SelectiveNotice + FirstContent(responses)
    else
      FallbackStart(mode) + ConcatMap(responses, FallbackBlock)
  }

  /** What precedes the blocks outside selective mode: the header, and in
      intersection mode its notice. */
  function FallbackStart(mode: string): string {
    if mode == "intersection" then FallbackHeader(mode) + IntersectionNotice else FallbackHeader(mode)
  }

  /** Selective fallback returns only the first response: the others do not
      affect it. */
  lemma FallbackSelectiveIgnoresRest(a: seq<ModelResponse>, b: seq<ModelResponse>)
    requires |a| > 0 && |b| > 0 && a[0] == b[0]
    ensures Fallback(a, "selective") == Fallback(b, "selective")
    ensures Fallback(a, "selective") == FallbackHeader("selective") + SelectiveNotice + a[0].content
  {
  }

  /** In every mode but selective, the i-th response's block follows the
      blocks of the responses before it. */
  lemma FallbackLayout(responses: seq<ModelResponse>, mode: string, i: int)
    requires mode != "selective" && 0 <= i < |responses|
    ensures Fallback(responses, mode)
      == FallbackStart(mode) + ConcatMap(responses[..i], FallbackBlock)
         + FallbackBlock(responses[i]) + ConcatMap(responses[i + 1..], FallbackBlock)
  {
    FallbackBlocks(responses, mode);
    ConcatMapAt(responses, i, FallbackBlock);
    AppendAfter(FallbackStart(mode), ConcatMap(responses[..i], FallbackBlock),
      FallbackBlock(responses[i]), ConcatMap(responses[i + 1..], FallbackBlock));
  }

  lemma FallbackBlocks(responses: seq<ModelResponse>, mode: string)
    requires mode != "selective"
    ensures Fallback(responses, mode) == FallbackStart(mode) + ConcatMap(responses, FallbackBlock)
  {
  }

  lemma AppendAfter(s: string, a: string, b: string, c: string)
    ensures s + (a + b + c) == s + a + b + c
  {
  }

  /** The `forEach` of `fallbackSynthesis`: the heading and the content of
      each response appended in order. */
  method AppendFallbackBlocks(text: string, responses: seq<ModelResponse>) returns (result: string)
    ensures result == text + ConcatMap(responses, FallbackBlock)
  {
    result := text;
    var i := 0;
    while i < |responses|
      invariant 0 <= i <= |responses|
      invariant result == text + ConcatMap(responses[..i], FallbackBlock)
    {
      assert responses[..i + 1][..i] == responses[..i];
      result := result + ("**" + responses[i].modelName + "의 응답:**\n");
      result := result + (responses[i].content + "\n\n");
      i := i + 1;
    }
    assert responses[..i] == responses;
  }

  /** The imperative `fallbackSynthesis`, building `result` by `+=`. */
  method FallbackSynthesis(responses: seq<ModelResponse>, mode: string) returns (result: string)
    ensures result == Fallback(responses, mode)
  {
    result := "[" + mode + " 모드 - 기본 통합]\n\n";
    if mode == "intersection" {
      result := result + IntersectionNotice;
    } else if mode == "selective" {
      result := result + SelectiveNotice;
      var first := if |responses| > 0 then responses[0].content else "undefined";
      return result + first;
    }
    result := AppendFallbackBlocks(result, responses);
  }

  // ---------------------------------------------------------------------
  // The merge call and the round

  /** What the injected `chatCompletion` call gave: `Ok(c)` carries
      `response.choices[0]?.message.content` (None when there is no first
      choice or no content), `Fail` stands for any thrown error. */
  datatype Outcome = Ok(content: Option<string>) | Fail

  /** The result of one round: the merge requests issued, in order, and the
      text returned. */
  datatype Synthesis = Synthesis(calls: seq<OpenRouterRequest>, text: string)

  /** The request each mode sends: the model, the system prompt and the user
      prompt, and the mode's temperature; nothing else is set. */
  function MergeRequest(m: Mode, model: string, prompt: string): OpenRouterRequest {
    OpenRouterRequest(
      model,
      [OpenRouterMessage(System, Text(SystemPrompt(ModeName(m)))), OpenRouterMessage(User, Text(prompt))],
      None, None, Some(Temperature(m)), None, None, None, None, None, None, None)
  }

  /** The message returned when the merge call succeeds without content. */
  function EmptyResult(m: Mode): string {
    match m
    case Union => "통합된 응답을 생성할 수 없습니다."
    case Intersection => "공통 내용을 찾을 수 없습니다."
    case Selective => "선별된 응답을 생성할 수 없습니다."
  }

  /** `content || emptyMessage` on success, the fallback on failure. */
  function MergeText(m: Mode, outcome: Outcome, responses: seq<ModelResponse>): string {
    match outcome
    case Ok(Some(c)) => if c != "" then c else EmptyResult(m)
    case Ok(None) => EmptyResult(m)
    case Fail => Fallback(responses, ModeName(m))
  }

  /** The user prompt of a mode; intersection derives its threshold from the
      number of responses it merges. */
  function ModePrompt(m: Mode, responses: seq<ModelResponse>, config: SynthesizerConfig, question: string): string {
    match m
    case Union => UserPrompt(responses, question, UnionClosing)
    case Intersection => UserPrompt(responses, question, IntersectionClosing(Threshold(config, |responses|)))
    case Selective => UserPrompt(responses, question, SelectiveClosing)
  }

  /** `synthesizeUnion`, `synthesizeIntersection`, `synthesizeSelective`: one
      merge request, and the text its outcome maps to. */
  function Merge(m: Mode, responses: seq<ModelResponse>, config: SynthesizerConfig, question: string,
                 api: OpenRouterRequest -> Outcome): Synthesis
  {
    var request := MergeRequest(m, config.model, ModePrompt(m, responses, config, question));
    Synthesis([request], MergeText(m, api(request), responses))
  }

  /** `synthesize(responses, config, question)`. */
  function Synthesize(responses: seq<ModelResponse>, config: SynthesizerConfig, question: string,
                      api: OpenRouterRequest -> Outcome): (r: Synthesis)
    ensures |responses| == 0 ==> r == Synthesis([], NoResponsesMessage)
    ensures |responses| > 0 && |Completed(responses)| == 0 ==> r == Synthesis([], NoCompletedMessage)
    ensures |Completed(responses)| > 0 ==> |r.calls| == 1
  {
    if |responses| == 0 then Synthesis([], NoResponsesMessage)
    else
      var completed := Completed(responses);
      if |completed| == 0 then Synthesis([], NoCompletedMessage)
      else Merge(ModeOf(config.mode), completed, config, question, api)
  }

  /** The one request of a round with usable responses: the configured model,
      the mode's system prompt, the mode's user prompt over the usable
      responses, the mode's temperature, and no other parameter (no stream
      flag, no forwarded sampling parameter). */
  lemma SynthesizeRequest(responses: seq<ModelResponse>, config: SynthesizerConfig, question: string,
                          api: OpenRouterRequest -> Outcome)
    requires |Completed(responses)| > 0
    ensures var m, done := ModeOf(config.mode), Completed(responses);
      var r := Synthesize(responses, config, question, api);
      && |r.calls| == 1
      && r.calls[0].model == config.model
      && r.calls[0].messages == [OpenRouterMessage(System, Text(SystemPrompt(ModeName(m)))),
                                 OpenRouterMessage(User, Text(ModePrompt(m, done, config, question)))]
      && r.calls[0].temperature == Some(Temperature(m))
      && r.calls[0] == OpenRouterRequest(r.calls[0].model, r.calls[0].messages, None, None,
                                         r.calls[0].temperature, None, None, None, None, None, None, None)
  {
  }

  /** The text of a round with usable responses: the first choice's content
      when the call succeeds with non-empty content, the mode's fixed message
      when it succeeds without, and exactly the fallback over the usable
      responses when it fails. */
  lemma SynthesizeText(responses: seq<ModelResponse>, config: SynthesizerConfig, question: string,
                       api: OpenRouterRequest -> Outcome)
    requires |Completed(responses)| > 0
    ensures var m, done := ModeOf(config.mode), Completed(responses);
      var r := Synthesize(responses, config, question, api);
      var o := api(r.calls[0]);
      && (o.Ok? && o.content.Some? && o.content.value != "" ==> r.text == o.content.value)
      && (o.Ok? && (o.content.None? || o.content.value == "") ==> r.text == EmptyResult(m))
      && (o.Fail? ==> r.text == Fallback(done, ModeName(m)))
  {
  }

  /** A mode other than the three known names behaves exactly like union. */
  lemma UnknownModeIsUnion(responses: seq<ModelResponse>, config: SynthesizerConfig, question: string,
                           api: OpenRouterRequest -> Outcome)
    requires config.mode !in {"union", "intersection", "selective"}
    ensures Synthesize(responses, config, question, api)
         == Synthesize(responses, config.(mode := "union"), question, api)
  {
  }

  /** The round consults the API only through the request it records: two
      APIs that agree on every recorded request give the same round. With no
      usable response nothing is recorded, so the API is never consulted. */
  lemma SynthesizeUsesOnlyItsCalls(responses: seq<ModelResponse>, config: SynthesizerConfig, question: string,
                                   api1: OpenRouterRequest -> Outcome, api2: OpenRouterRequest -> Outcome)
    requires forall q :: q in Synthesize(responses, config, question, api1).calls ==> api1(q) == api2(q)
    ensures Synthesize(responses, config, question, api1) == Synthesize(responses, config, question, api2)
  {
    if |Completed(responses)| > 0 {
      var r := Synthesize(responses, config, question, api1);
      assert r.calls[0] in r.calls;
    }
  }
}
