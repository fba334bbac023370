# Chat synthesizer core, modelled in Dafny

The chat synthesizer sends one question to a group of AI models through
OpenRouter. It then merges their answers into one reply, in one of three
modes:

- *union* keeps all information and removes duplicates;
- *intersection* keeps only what at least a threshold of models say;
- *selective* keeps only the most valuable answer content.

This project models the three pieces of sequential logic under that
application and proves properties of them.

- **The synthesis engine** (`Synthesizer`, `Quality`). It rejects an empty
  round and keeps only completed, non-blank responses, in order. It
  dispatches on the merge mode and derives the intersection threshold. It
  builds the system and user prompts and issues the mode's single merge
  request. The request's outcome becomes the merged text, a fixed "empty"
  message, or the offline fallback text. `evaluateResponse` scores the
  quality of a response.
- **The OpenRouter client's request logic** (`OpenRouter`):
  - the streaming request;
  - the line filter that turns decoded stream chunks into parsed frames
    (`data: ` lines only, trimmed payload, end at `[DONE]`, skip what does
    not parse);
  - the preparation of uploaded files;
  - the assembly of a user message with attachments.
- **The browser store** (`Storage`): the API key, the model groups and the
  chat sessions kept under three `localStorage` keys. It covers lookup by id,
  upsert, delete with a "removed" flag, the case-insensitive duplicate-title
  check, clearing, and the selective import of a backup.

Supporting modules:

- `Strings` holds the JavaScript string operations the core uses, written
  out over `seq<char>`: `trim`, `startsWith`, `endsWith`, `includes`,
  `split('\n')`, number rendering and `toLowerCase`.
- `Folds` holds the left folds that the source's `forEach` and `for` loops
  compute.
- `Types` holds the records of `src/types/index.ts`.
- `Wrappers` holds `Option`.

How the model is written:

- Where the source builds a string or a list step by step, the model keeps a
  `method` with a loop.
  - `create*Prompt` and `fallbackSynthesis` build with `+=`.
  - `evaluateResponse` updates a `score` step by step.
  - `streamChatCompletion` has a read loop and a line loop.
  - `createMessageWithFiles` has push loops.
- Each such method is proved equal to a specification function, and the
  properties are lemmas about that function.
- The store is a `class` whose three fields are the three storage keys. Its
  methods change those fields as the static methods of
  `LocalStorageManager` change `localStorage`.
- Whatever the core cannot see becomes a parameter:
  - the merge call `chatCompletion` is `api`, from the request to an
    `Outcome`;
  - `JSON.parse` of a stream frame is `parse`;
  - `atob` is an uninterpreted function;
  - the clock of `new Date()` is a `now` argument;
  - `JSON.parse` of a backup is a `parse` into the `Backup` datatype.
- A JSON string under a storage key is modelled by what reading it back
  gives. An `Entry` is absent, unparsable, or the parsed list.
- A synthesis round returns the requests it issued together with its text.
  "No API call" is therefore `calls == []`.
- `UploadedFile.type` is named `mimeType`, since `type` is a Dafny keyword.

## Model

| member | source | states |
|---|---|---|
| Strings.TrimEmptyIffBlank | src/utils/Synthesizer.ts:24 | `s.trim()` is empty (falsy) exactly when every character of `s` is whitespace |
| Strings.Trim | src/utils/Synthesizer.ts:24 | `String.prototype.trim`, as also called at Synthesizer.ts:246 and OpenRouterAPI.ts:81, 140: removes the leading and the trailing ECMAScript white space and line terminators (`IsWhitespace`); what is removed is blank and what is kept starts and ends with a non-space (the contracts of `TrimStart`, `TrimEnd`), and `TrimEmptyIffBlank` proves the falsy test |
| Strings.TrimIdempotent | src/utils/Synthesizer.ts:246 | a sanity property of the modelled `trim` (the source trims once): trimming a trimmed string changes nothing |
| Strings.JoinSplit | src/utils/OpenRouterAPI.ts:77 | `split('\n')` loses nothing: the pieces joined with '\n' give the chunk back |
| Strings.SplitWithoutSeparator | src/utils/OpenRouterAPI.ts:77 | a chunk without '\n' splits into itself alone |
| Strings.Split | src/utils/OpenRouterAPI.ts:77 | `chunk.split('\n')`: at least one piece and no piece holds the separator; `JoinSplit` proves the pieces are the chunk's text between separators, and `SplitWithoutSeparator` the one-piece case |
| Strings.NatToStringRoundTrip | src/utils/Synthesizer.ts:171 | the decimal rendering `${n}` of a response count reads back as n |
| Strings.IntToStringInjective | src/utils/Synthesizer.ts:199 | different thresholds render as different `${threshold}` texts |
| Strings.IntToString | src/utils/Synthesizer.ts:199 | the `${threshold}` of the intersection closing for an integer below 1e21 in magnitude: a leading minus sign exactly for a negative value, then the decimal digits with no leading zero (`NatToString`); `IntToStringInjective` proves distinct values give distinct texts |
| Strings.LowerIdempotent | src/utils/LocalStorageManager.ts:103 | lowering a lowered title changes nothing |
| Strings.Lower | src/utils/LocalStorageManager.ts:103 | `title.toLowerCase()`, for ASCII letters: same length, each character lowered on its own; `LowerIdempotent` proves lowering again changes nothing |
| Strings.ContainsPrefixOfPattern | src/utils/Synthesizer.ts:259 | a text that includes "```" includes "`" |
| Strings.Contains | src/utils/Synthesizer.ts:256-264 | `content.includes(p)`: `p` occurs at some offset from 0 to the length of `content` (so the empty string always occurs); `ContainsPrefixOfPattern` proves an occurrence of `p + q` is one of `p` |
| Synthesizer.Completed | src/utils/Synthesizer.ts:24 | the filter keeps only completed responses with non-blank content, all of them, each taken from the input |
| Synthesizer.CompletedAppend | src/utils/Synthesizer.ts:24 | the filter keeps the input's relative order: it distributes over concatenation |
| Synthesizer.UsableIffNotBlank | src/utils/Synthesizer.ts:24 | a response passes the filter exactly when it is completed and its content is not all whitespace |
| Synthesizer.IsUsable | src/utils/Synthesizer.ts:24 | the predicate of the filter, `r.isCompleted && r.content.trim()`; `UsableIffNotBlank` proves it holds exactly when the response is completed and not blank, and `Completed` that the filter keeps exactly the responses it holds for |
| Synthesizer.ModeOf | src/utils/Synthesizer.ts:30-42 | "intersection" and "selective" select their modes; every other value, "union" included, selects union |
| Synthesizer.ModeName | src/utils/Synthesizer.ts:31-38 | the name each mode passes to the prompt and fallback selects that mode again |
| Synthesizer.Temperature | src/utils/Synthesizer.ts:62 | the sampling temperature each merge request carries: 0.3 for union, 0.2 for intersection (line 90), 0.4 for selective (line 117); `SynthesizeRequest` proves the request carries it |
| Synthesizer.Threshold | src/utils/Synthesizer.ts:80 | the configured threshold when present and non-zero; otherwise the least value that is at least 2 and at least half of n, that is `max(2, ceil(n/2))` |
| Synthesizer.ThresholdExamples | src/utils/Synthesizer.ts:80 | without a configured threshold, n = 1, 3, 5 give 2, 2, 3 |
| Synthesizer.SystemPrompt | src/utils/Synthesizer.ts:130-164 | every system prompt starts with the base prompt; an unknown mode name gets the base prompt alone |
| Synthesizer.SystemPromptsDiffer | src/utils/Synthesizer.ts:133-159 | the three modes' system prompts are pairwise different |
| Synthesizer.UserPromptLayout | src/utils/Synthesizer.ts:169-181 | the user prompt is the question line and count line, then the i-th response's `=== name (id) ===` block right after the blocks of the responses before it, in order, then the closing |
| Synthesizer.PromptHeadCount | src/utils/Synthesizer.ts:170-171 | the count line determines the number of responses |
| Synthesizer.UserPrompt | src/utils/Synthesizer.ts:169-219 | the user prompt all three `create*Prompt` builders share: question and count lines, one block per response, then the mode's closing; laid out by `UserPromptLayout` |
| Synthesizer.ClosingThreshold | src/utils/Synthesizer.ts:199 | only the intersection closing depends on the threshold, and different thresholds give different closings |
| Synthesizer.AppendResponseBlocks | src/utils/Synthesizer.ts:173-176 | the `forEach` appends exactly one block per response, in order |
| Synthesizer.CreateUnionPrompt | src/utils/Synthesizer.ts:169-181 | the built prompt is the union user prompt over the responses |
| Synthesizer.CreateIntersectionPrompt | src/utils/Synthesizer.ts:186-202 | the built prompt is the intersection user prompt, with the threshold in its closing |
| Synthesizer.CreateSelectivePrompt | src/utils/Synthesizer.ts:207-219 | the built prompt is the selective user prompt over the responses |
| Synthesizer.Fallback | src/utils/Synthesizer.ts:224-240 | the fallback text always starts with `[mode 모드 - 기본 통합]\n\n` and is never empty, so the `\|\|` default after the selective concatenation is unreachable |
| Synthesizer.FallbackSelectiveIgnoresRest | src/utils/Synthesizer.ts:229-231 | selective fallback is the header, the notice and the first response's content only; the other responses do not affect it |
| Synthesizer.FallbackLayout | src/utils/Synthesizer.ts:225-237 | outside selective mode, the i-th response's `**name의 응답:**` block follows the header (and the intersection notice) and the blocks of the responses before it, in order |
| Synthesizer.AppendFallbackBlocks | src/utils/Synthesizer.ts:234-237 | the `forEach` appends exactly one fallback block per response, in order |
| Synthesizer.FallbackSynthesis | src/utils/Synthesizer.ts:224-240 | the text built by `+=` is the fallback text for the mode |
| Synthesizer.MergeRequest | src/utils/Synthesizer.ts:55-63 | the one request of `synthesizeUnion` (and of lines 84-91, 111-118): the model, the mode's system prompt then the user prompt, the mode's temperature, nothing else; proved in `SynthesizeRequest` |
| Synthesizer.MergeText | src/utils/Synthesizer.ts:65-68 | `content \|\| message` after a successful call and the fallback after a throw (also lines 93-96 and 120-123); proved in `SynthesizeText` |
| Synthesizer.EmptyResult | src/utils/Synthesizer.ts:65 | the right side of `content \|\| message` in each mode: "통합된 응답을 생성할 수 없습니다." (line 65), "공통 내용을 찾을 수 없습니다." (line 93), "선별된 응답을 생성할 수 없습니다." (line 120); `SynthesizeText` proves it is the result exactly when the call succeeds with missing or empty content |
| Synthesizer.ModePrompt | src/utils/Synthesizer.ts:80-81 | the user prompt each mode builds (lines 53, 81, 108): union and selective from the responses and the question, intersection also from the threshold of line 80 for the number of responses merged; `SynthesizeRequest` proves the merge request carries it as its user message |
| Synthesizer.Merge | src/utils/Synthesizer.ts:48-125 | one synthesize method: issue the mode's request and map its outcome to the text; its request and text are proved in `SynthesizeRequest` and `SynthesizeText` |
| Synthesizer.Synthesize | src/utils/Synthesizer.ts:14-43 | no responses gives exactly "응답을 받지 못했습니다." and no call; no usable response gives exactly "완료된 응답이 없습니다." and no call; otherwise exactly one call |
| Synthesizer.SynthesizeRequest | src/utils/Synthesizer.ts:48-125 | the single request carries the configured model, the mode's system prompt, the mode's user prompt over the usable responses, the mode's temperature (0.3, 0.2, 0.4) and no other parameter |
| Synthesizer.SynthesizeText | src/utils/Synthesizer.ts:55-124 | a successful call with non-empty content gives that content; one without content gives the mode's fixed message; a failed call gives exactly the fallback over the usable responses |
| Synthesizer.UnknownModeIsUnion | src/utils/Synthesizer.ts:40-41 | a mode other than the three names gives the same round as "union" |
| Synthesizer.SynthesizeUsesOnlyItsCalls | src/utils/Synthesizer.ts:19-28 | the round depends on the API only through the requests it records, so a round with no usable response never consults it |
| Quality.PhrasesPresent | src/utils/Synthesizer.ts:263-265 | the hedge count is at most the number of phrases |
| Quality.PhrasesPresentIsCardinality | src/utils/Synthesizer.ts:263-265 | for distinct phrases, the `reduce` counts the distinct phrases present, however often each occurs |
| Quality.HedgeCount | src/utils/Synthesizer.ts:262-265 | the source's five hedge phrases are distinct, so their count is the number of them present |
| Quality.QualityScore | src/utils/Synthesizer.ts:245-269 | the score `evaluateResponse` returns, with the source's five hedge phrases; bounded and explained by `QualityScoreRules` |
| Quality.RawScore | src/utils/Synthesizer.ts:250-259 | length, structure and code points together lie in [0, 35] |
| Quality.ScoreWithRules | src/utils/Synthesizer.ts:246-268 | blank text scores 0; otherwise the raw points less ten per hedge, or 0 when the hedges outweigh them; always within [0, 35] |
| Quality.QualityScoreRules | src/utils/Synthesizer.ts:245-268 | the score lies in [0, 35], within the documented [0, 100]; blank text scores 0; each distinct hedge phrase present costs ten points |
| Quality.QualityScoreExample | src/utils/Synthesizer.ts:250-266 | a 100-character text with a newline, no backtick and one hedge phrase scores 20 |
| Quality.CountPhrases | src/utils/Synthesizer.ts:263-265 | the loop computes the `reduce` over the phrases |
| Quality.EvaluateResponse | src/utils/Synthesizer.ts:245-269 | the step-by-step score equals the specified score and lies in [0, 35] |
| Quality.ScorePoints | src/utils/Synthesizer.ts:250-268 | the points added up step by step after the blank test are the raw points less ten per hedge phrase present, clamped |
| OpenRouter.StreamRequest | src/utils/OpenRouterAPI.ts:45 | the streaming request has `stream` set to true and every other property unchanged |
| OpenRouter.Step | src/utils/OpenRouterAPI.ts:79-93 | one iteration of the inner `for` loop on a line: its payload, if it is a data line, goes to `StepOn`; proved to add at most one frame by `StepExtends` |
| OpenRouter.StepOn | src/utils/OpenRouterAPI.ts:80-92 | after the end nothing changes; a non-data line is ignored; `[DONE]` ends the stream; a parsed payload is appended and an unparsable one skipped; see `StepOnExtends`, `StepYields` |
| OpenRouter.Feed | src/utils/OpenRouterAPI.ts:79-93 | the `for` over one chunk's lines, `Step` taken line by line; `FeedAppend`, `FeedExtends`, `FeedAfterDone` and `FeedStopsAt` prove its properties and `FeedLines` that the loop computes it |
| OpenRouter.ReadChunks | src/utils/OpenRouterAPI.ts:71-95 | the `while (true)` read loop: each decoded chunk split on '\n' and fed from where the previous chunk stopped; `ReadChunksIsFeedLines` proves it is the feed of all the chunks' pieces, and `ReadChunksAfterDone` that chunks after `[DONE]` change nothing |
| OpenRouter.Frames | src/utils/OpenRouterAPI.ts:71-95 | the frames the generator yields for the decoded chunks; `StreamFrames` proves the loop yields them, `FramesComeFromLines` that each is the parse of a data line's payload, and `DoneEndsStream` that nothing after `[DONE]` is among them |
| OpenRouter.FeedAppend | src/utils/OpenRouterAPI.ts:79-94 | taking lines `a + b` is taking `a`, then `b` |
| OpenRouter.FeedAfterDone | src/utils/OpenRouterAPI.ts:83-85 | after `[DONE]` no line changes anything |
| OpenRouter.ReadChunksAfterDone | src/utils/OpenRouterAPI.ts:83-85 | after `[DONE]` within the first k chunks, later chunks change nothing |
| OpenRouter.FeedLines | src/utils/OpenRouterAPI.ts:79-94 | the inner loop over one chunk's lines reaches exactly the specified frames and end flag |
| OpenRouter.StreamFrames | src/utils/OpenRouterAPI.ts:70-98 | the read loop yields exactly the specified frames of the decoded chunks |
| OpenRouter.ReadChunksIsFeedLines | src/utils/OpenRouterAPI.ts:71-95 | reading chunk by chunk is taking all their lines in order: chunks in read order, lines in order within each chunk |
| OpenRouter.FeedExtends | src/utils/OpenRouterAPI.ts:87-89 | frames are only ever appended: what was yielded stays, in order |
| OpenRouter.StepExtends | src/utils/OpenRouterAPI.ts:79-93 | one line adds at most one frame and keeps the earlier ones |
| OpenRouter.StepYields | src/utils/OpenRouterAPI.ts:80-89 | a frame added by a line is the parse of that line's payload |
| OpenRouter.FeedThroughDone | src/utils/OpenRouterAPI.ts:83-85 | lines after a `[DONE]` line are ignored and the stream has ended with the frames read before it |
| OpenRouter.FeedStopsAt | src/utils/OpenRouterAPI.ts:83-85 | a `[DONE]` line at position k ends the stream with the frames of the lines before k |
| OpenRouter.DoneEndsStream | src/utils/OpenRouterAPI.ts:71-95 | a `[DONE]` line anywhere ends the stream: no later line, in the same chunk or a later one, yields a frame |
| OpenRouter.FeedIgnoresOtherLines | src/utils/OpenRouterAPI.ts:80 | lines that do not start with `data: ` change nothing |
| OpenRouter.SkippedLine | src/utils/OpenRouterAPI.ts:87-92 | a non-data line, or a payload that fails to parse, can be removed without changing the result: it is skipped and reading goes on |
| OpenRouter.ParsedLineYields | src/utils/OpenRouterAPI.ts:87-89 | before the end, a payload that parses is yielded right after the frames already read |
| OpenRouter.FramesComeFromLines | src/utils/OpenRouterAPI.ts:79-93 | every frame yielded is the parse of the payload of some data line that is not `[DONE]` |
| OpenRouter.DataLinePayload | src/utils/OpenRouterAPI.ts:80-81 | the payload of `data: x` is `x` trimmed, the text after the first six characters |
| OpenRouter.Payload | src/utils/OpenRouterAPI.ts:80-81 | `line.slice(6).trim()` for a line that starts with `data: `, none otherwise; `DataLinePayload` proves it, and `FeedIgnoresOtherLines` that a line without the prefix changes nothing |
| OpenRouter.PrepareFile | src/utils/OpenRouterAPI.ts:104-117 | `prepareFileForMessage`: the data URL for an image, the `[File: name]` line and decoded data for a text, PDF type or `.pdf` name, otherwise the placeholder; its branches are proved in `PrepareFileKinds` |
| OpenRouter.OtherLine | src/utils/OpenRouterAPI.ts:80 | a line not starting with 'd' is not a data line |
| OpenRouter.OtherReadsYieldNothing | src/utils/OpenRouterAPI.ts:76-80 | two reads of one non-data line each yield nothing |
| OpenRouter.SplitLineNotReassembled | src/utils/OpenRouterAPI.ts:76-77 | `data: x` cut across two reads as `dat` and `a: x` yields nothing, although the whole line carries the payload `x` trimmed |
| OpenRouter.PrepareFileKinds | src/utils/OpenRouterAPI.ts:104-117 | images (even named `*.pdf`) give `data:type;base64,data`; else text, PDF type or a `.pdf` name give `[File: name]\n` and the decoded data; else the placeholder, which like the data URL does not depend on `atob`; the prepared text tells which branch was taken |
| OpenRouter.FilePartKind | src/utils/OpenRouterAPI.ts:149-162 | a file's item is an image URL exactly for an image file |
| OpenRouter.FilePart | src/utils/OpenRouterAPI.ts:149-162 | one file's item in the parts array: an `image_url` item holding the prepared URL for an `image/` type, a `text` item holding the prepared text otherwise; proved in `FilePartKind` and `PartsAfter` |
| OpenRouter.HasImages | src/utils/OpenRouterAPI.ts:134 | `files.some(f => f.type.startsWith('image/'))`: some file is an image; `MessageWithImages` and `MessageWithoutImages` prove which message shape each answer gives |
| OpenRouter.LeadItems | src/utils/OpenRouterAPI.ts:140-145 | one text item holding `content` when it is not blank, none otherwise |
| OpenRouter.MessageWithoutFiles | src/utils/OpenRouterAPI.ts:126-131 | with no files the message is the user's text, unchanged |
| OpenRouter.ImageMessageWithText | src/utils/OpenRouterAPI.ts:136-169 | with an image and non-blank text, the text item comes first, then the file items |
| OpenRouter.ImageMessageBlankText | src/utils/OpenRouterAPI.ts:136-169 | with an image and blank text there is no text item at all |
| OpenRouter.MessageWithImages | src/utils/OpenRouterAPI.ts:134-169 | with an image among the files: a user message whose items are a text item exactly when `content` is not blank, then the k-th file's item at offset k after it, an image URL exactly for an image |
| OpenRouter.PartsAfter | src/utils/OpenRouterAPI.ts:148-164 | the k-th file's item sits k places after the leading items |
| OpenRouter.MessageWithoutImages | src/utils/OpenRouterAPI.ts:170-182 | with files but no image: one text, `content` followed by `"\n\n" + prepared(file)` for each file in order |
| OpenRouter.MessageWithFiles | src/utils/OpenRouterAPI.ts:122-184 | the message `createMessageWithFiles` builds for the three cases (no file, an image, no image); proved in `MessageWithoutFiles`, `MessageWithImages`, `MessageWithoutImages` |
| OpenRouter.PushFileParts | src/utils/OpenRouterAPI.ts:148-164 | the loop pushes one item per file, in order, after those already there |
| OpenRouter.AppendFileTexts | src/utils/OpenRouterAPI.ts:172-177 | the loop appends each prepared file after a blank line, in order |
| OpenRouter.CreateMessageWithFiles | src/utils/OpenRouterAPI.ts:122-184 | the built message is the specified message for the text and files |
| Storage.FindIndex | src/utils/LocalStorageManager.ts:72 | the first position whose id matches, or -1 exactly when none does |
| Storage.Find | src/utils/LocalStorageManager.ts:62-65 | `find(...) \|\| null`: the element at the first matching position, or nothing; proved in `FindFirst` |
| Storage.FindFirst | src/utils/LocalStorageManager.ts:62-65 | lookup gives nothing exactly when no element has the id, and otherwise the first element that has it |
| Storage.FindIndexAt | src/utils/LocalStorageManager.ts:72 | a matching position with no match before it is the one reported |
| Storage.UpsertSlots | src/utils/LocalStorageManager.ts:70-81 | an existing id: its first slot is replaced, the length and every other slot unchanged; a new id: appended at the end, length plus one |
| Storage.Upsert | src/utils/LocalStorageManager.ts:72-78 | the `findIndex`, replace-with-stamped or `push` of the save methods; proved in `UpsertSlots`, `FindAfterUpsert`, `UpsertKeepsOtherKeys` |
| Storage.UpsertGroup | src/utils/LocalStorageManager.ts:75 | `saveModelGroup`'s list: `Upsert` with the replacement `{ ...group, updatedAt: new Date() }`, the clock being `now`, and the group pushed unstamped when its id is new; `UpsertSlots` and `FindAfterUpsert` prove the result, and `SaveModelGroup` that it is written back |
| Storage.UpsertSession | src/utils/LocalStorageManager.ts:165 | `saveChatSession`'s list, the same upsert stamping `updatedAt` with `now` on replace; `UpsertSlots` and `FindAfterUpsert` prove the result, and `SaveChatSession` that it is written back |
| Storage.FindAfterUpsert | src/utils/LocalStorageManager.ts:70-81 | after an upsert, the id finds the stamped replacement or the appended element |
| Storage.UpsertKeepsOtherKeys | src/utils/LocalStorageManager.ts:70-81 | an upsert does not change what any other id finds |
| Storage.RemoveAll | src/utils/LocalStorageManager.ts:88 | the filtered list is no longer and holds no element with the id |
| Storage.RemoveAllShrinks | src/utils/LocalStorageManager.ts:88-90 | the list shrinks exactly when some element has the id, and is unchanged otherwise |
| Storage.RemoveAllAppend | src/utils/LocalStorageManager.ts:88 | the filter keeps the other elements in order: it distributes over concatenation |
| Storage.FindAfterRemove | src/utils/LocalStorageManager.ts:86-95 | after a delete the id finds nothing and every other id finds what it found before |
| Storage.TitleTakenIgnoresCase | src/utils/LocalStorageManager.ts:100-106 | a title and its lowered form clash with the same groups |
| Storage.TitleTaken | src/utils/LocalStorageManager.ts:102-105 | the `some` of `isModelGroupTitleDuplicate`: a group whose lowered title equals the lowered title and whose id is not `excludeId`; see `TitleTakenIgnoresCase` |
| Storage.Stored | src/utils/LocalStorageManager.ts:42-57 | a missing or corrupt entry reads as `[]`, a parsed one as its list |
| Storage.LocalStore.SaveApiKey | src/utils/LocalStorageManager.ts:8-10 | the key is stored; the lists are untouched |
| Storage.LocalStore.GetApiKey | src/utils/LocalStorageManager.ts:15-17 | returns the stored key, or none |
| Storage.LocalStore.ClearApiKey | src/utils/LocalStorageManager.ts:22-24 | the key is removed; the lists are untouched |
| Storage.LocalStore.SaveModelGroups | src/utils/LocalStorageManager.ts:29-37 | the groups are stored as given; the other keys are untouched |
| Storage.LocalStore.GetModelGroups | src/utils/LocalStorageManager.ts:42-57 | the stored groups, or `[]` when the entry is missing or does not parse |
| Storage.LocalStore.GetModelGroup | src/utils/LocalStorageManager.ts:62-65 | the first stored group with the id; nothing exactly when no stored group has it |
| Storage.LocalStore.SaveModelGroup | src/utils/LocalStorageManager.ts:70-81 | the stored list becomes the upsert of the group into the read list, a replacement stamped with `now` |
| Storage.LocalStore.DeleteModelGroup | src/utils/LocalStorageManager.ts:86-95 | true exactly when some stored group has the id; then every such group is removed and the list written back; otherwise the entry is not written at all |
| Storage.LocalStore.IsModelGroupTitleDuplicate | src/utils/LocalStorageManager.ts:100-106 | true exactly when some stored group has a case-insensitively equal title and an id other than `excludeId` (no `excludeId` excludes nothing) |
| Storage.LocalStore.SaveChatSessions | src/utils/LocalStorageManager.ts:111-119 | the sessions are stored as given; the other keys are untouched |
| Storage.LocalStore.GetChatSessions | src/utils/LocalStorageManager.ts:124-147 | the stored sessions, or `[]` when the entry is missing or does not parse |
| Storage.LocalStore.GetChatSession | src/utils/LocalStorageManager.ts:152-155 | the first stored session with the id; nothing exactly when no stored session has it |
| Storage.LocalStore.SaveChatSession | src/utils/LocalStorageManager.ts:160-171 | the stored list becomes the upsert of the session into the read list, a replacement stamped with `now` |
| Storage.LocalStore.DeleteChatSession | src/utils/LocalStorageManager.ts:176-185 | true exactly when some stored session has the id; then every such session is removed and the list written back; otherwise the entry is not written at all |
| Storage.LocalStore.ClearAllData | src/utils/LocalStorageManager.ts:190-194 | all three keys are removed |
| Storage.LocalStore.ImportData | src/utils/LocalStorageManager.ts:212-233 | false, with nothing changed, exactly when the backup does not parse; otherwise true, the key written only when it is a non-empty string, each list written only when it is an array (even an empty one), the rest unchanged |

## Left out

- The network is not modelled:
  - the `fetch` calls, headers, status checks and error texts of
    `chatCompletion` and `streamChatCompletion`;
  - `validateApiKey` and `getAvailableModels`.
  The merge call is the injected `api`, and a thrown error is its `Fail`
  outcome.
- The stream reader is not modelled: `getReader`, the missing-reader error,
  `TextDecoder` decoding and `releaseLock`. The model starts from the
  decoded chunk strings.
- `async`/`await` and the async generator are not modelled. The code has no
  concurrency, so the model runs sequentially, and a generator's yields are
  the sequence of frames.
- `JSON.parse` and `JSON.stringify` are not modelled, including the `Date`
  replacer of the save methods and the reviver of the get methods. A stream
  frame's parse is the injected `parse`. A stored list is an `Entry`;
  writing a list and reading it back is taken to give the same list, dates
  included.
- `Storage.LocalStore.ImportData`: the backup's parse is injected.
  - It gives none when `JSON.parse` throws, or when the JSON value is
    `null`, whose property reads throw.
  - It gives a list only for an array property, which is stored as it is,
    without checking its elements.
  - A truthy `apiKey` other than a string, such as a number, is not
    modelled.
- `exportData` is not modelled. It is JSON serialisation of the three reads
  plus a clock value, and it is not part of this core.
- The clock of `new Date()` in `saveModelGroup` and `saveChatSession` is the
  `now` argument.
- `atob` base64 decoding is an uninterpreted function argument.
- `OpenRouter.PrepareFile` always returns a string. `atob` throws an
  `InvalidCharacterError` on malformed base64, so for a text or PDF file with
  bad data `prepareFileForMessage`, and with it `createMessageWithFiles`,
  rejects. The model has no such error path. Nor does it model that `atob`
  returns a binary (Latin-1) string rather than decoded text.
- `OpenRouter.StreamFrames`: a rejected `reader.read()` makes the generator
  throw after the frames it has already yielded. The model reads a complete,
  finite sequence of chunks and has no failed read.
- `Synthesizer.Threshold`: `intersectionThreshold` is an `Option<int>`, but
  the source's `number` has values the model does not express:
  - a fractional value: 2.5 would put "2.5" in the intersection closing;
  - `NaN`, which is falsy, so `||` falls through to the default;
  - `Infinity` and `-Infinity`, which are truthy and render as "Infinity"
    and "-Infinity";
  - magnitudes from 1e21 up, which render in exponent form ("1e+21"), where
    `Strings.IntToString` writes every digit;
  - integers beyond 2^53, which a JavaScript number cannot hold exactly.
- `Synthesizer.UserPromptLayout`: only the layout of the prompt is proved. No
  lemma proves that the model names and ids can be parsed back out of a built
  prompt, and in general they cannot. A name, an id or a content that itself
  holds a `=== name (id) ===` line makes the blocks ambiguous.
- `Strings.Lower`: lowers ASCII letters only. `toLowerCase` follows the full
  Unicode case mapping, so titles that differ in non-ASCII case count as
  different in the model.
- `Quality.RawScore`: measures length in Dafny characters, where JavaScript's
  `length` counts UTF-16 code units. The two differ only for characters
  outside the Basic Multilingual Plane. The same holds for the six
  characters that `line.slice(6)` drops, but those are ASCII here.
- `console.error` and `console.warn` logging is not modelled.
- The `Synthesizer` constructor and the `OpenRouterAPI` constructor are not
  modelled. They only store the API key for the network calls.
- The merge is never streamed and forwards no sampling parameter other than
  its fixed temperature. `Synthesizer.SynthesizeRequest` proves that every
  other optional property of the request is unset.
- `OpenRouter.FeedLines`, `OpenRouter.PushFileParts`,
  `OpenRouter.AppendFileTexts`, `Synthesizer.AppendResponseBlocks` and
  `Synthesizer.AppendFallbackBlocks` are the inner loops of their callers,
  made methods of their own.
  - `Quality.ScorePoints` is likewise the part of `evaluateResponse` after the
    blank test.
  - `FeedLines` returns whether `[DONE]` was seen, and its caller then
    returns. The source returns from inside the inner loop.
- Quota errors of `localStorage.setItem` are not modelled. Every write is
  taken to succeed.
- The Vue application and router (`src/main.ts`, `src/router/index.ts`) are
  not part of this model. `src/types/index.ts` gives only the datatypes.
