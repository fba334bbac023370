/** The request-side logic of the OpenRouter client
    (src/utils/OpenRouterAPI.ts): the streaming request, the line filter that
    turns decoded stream chunks into parsed frames, and the assembly of a user
    message with attached files.

    The JSON parse of a frame is injected as `parse`, a partial function given
    as `string -> Option<StreamChunk>`; `atob` is injected as a function on
    strings and left uninterpreted. */
module OpenRouter {
  import opened Wrappers
  import opened Strings
  import opened Folds
  import opened Types

  /** `{ ...request, stream: true }`: the stream flag set, nothing else
      changed. */
  function StreamRequest(request: OpenRouterRequest): (r: OpenRouterRequest)
    ensures r.stream == Some(true)
    ensures r.(stream := request.stream) == request
  {
    request.(stream := Some(true))
  }

  // ---------------------------------------------------------------------
  // Stream frames

  const DataPrefix := "data: "
  const DoneSentinel := "[DONE]"

  /** The trimmed text after `data: ` of a data line, None for any other
      line. */
  function Payload(line: string): Option<string> {
    if StartsWith(line, DataPrefix) then Some(Trim(line[|DataPrefix|..])) else None
  }

  /** What has been read so far: the frames yielded, in order, and whether
      the stream has ended at a `[DONE]` line. */
  datatype Scan = Scan(frames: seq<StreamChunk>, done: bool)

  const Start := Scan([], false)

  /** One line of the inner `for` loop: after the end nothing changes; a
      non-data line is ignored; `[DONE]` ends the stream; a payload that
      parses is yielded and one that does not is skipped. */
  function Step(st: Scan, line: string, parse: string -> Option<StreamChunk>): Scan {
    StepOn(st, Payload(line), parse)
  }

  /** `Step` on a line whose payload is `payload`. */
  function StepOn(st: Scan, payload: Option<string>, parse: string -> Option<StreamChunk>): Scan {
    if st.done then st
    else
      match payload
      case None => st
      case Some(data) =>
        if data == DoneSentinel then st.(done := true)
        else
          match parse(data)
          case None => st
          case Some(frame) => st.(frames := st.frames + [frame])
  }

  /** `Step` for a given frame parser. */
  function StepWith(parse: string -> Option<StreamChunk>): (Scan, string) -> Scan {
    (st, line) => Step(st, line, parse)
  }

  /** The lines of one chunk, taken in order. */
  function Feed(st: Scan, lines: seq<string>, parse: string -> Option<StreamChunk>): Scan {
    Fold(st, lines, StepWith(parse))
  }

  /** One chunk of the outer read loop: its lines, split on '\n'. */
  function ChunkWith(parse: string -> Option<StreamChunk>): (Scan, string) -> Scan {
    (st, chunk) => Feed(st, Split(chunk, '\n'), parse)
  }

  /** The chunks read in order, each split on '\n' on its own. */
  function ReadChunks(chunks: seq<string>, parse: string -> Option<StreamChunk>): Scan {
    Fold(Start, chunks, ChunkWith(parse))
  }

  /** The frames `streamChatCompletion` yields for the decoded chunks. */
  function Frames(chunks: seq<string>, parse: string -> Option<StreamChunk>): seq<StreamChunk> {
    ReadChunks(chunks, parse).frames
  }

  /** The last line is taken after all the others. */
  lemma FeedLast(st: Scan, lines: seq<string>, parse: string -> Option<StreamChunk>)
    requires |lines| > 0
    ensures Feed(st, lines, parse) == Step(Feed(st, lines[..|lines| - 1], parse), lines[|lines| - 1], parse)
  {
  }

  /** The last chunk is read after all the others. */
  lemma ReadChunksLast(chunks: seq<string>, parse: string -> Option<StreamChunk>)
    requires |chunks| > 0
    ensures ReadChunks(chunks, parse)
      == Feed(ReadChunks(chunks[..|chunks| - 1], parse), Split(chunks[|chunks| - 1], '\n'), parse)
  {
  }

  /** A line after a run of lines is taken last. */
  lemma FeedOne(st: Scan, a: seq<string>, line: string, parse: string -> Option<StreamChunk>)
    ensures Feed(st, a + [line], parse) == Step(Feed(st, a, parse), line, parse)
  {
    FeedLast(st, a + [line], parse);
    assert (a + [line])[..|a|] == a;
  }

  /** Feeding a concatenation is feeding one part after the other. */
  lemma FeedAppend(st: Scan, a: seq<string>, b: seq<string>, parse: string -> Option<StreamChunk>)
    ensures Feed(st, a + b, parse) == Feed(Feed(st, a, parse), b, parse)
  {
    FoldAppend(st, a, b, StepWith(parse));
  }

  /** Once the stream has ended, no line changes anything. */
  lemma FeedAfterDone(st: Scan, lines: seq<string>, parse: string -> Option<StreamChunk>)
    requires st.done
    ensures Feed(st, lines, parse) == st
  {
    FoldAtFixedPoint(st, lines, StepWith(parse));
  }

  /** Once the stream has ended within the first k chunks, the later chunks
      yield nothing. */
  lemma ReadChunksAfterDone(chunks: seq<string>, k: int, parse: string -> Option<StreamChunk>)
    requires 0 <= k <= |chunks|
    requires ReadChunks(chunks[..k], parse).done
    ensures ReadChunks(chunks, parse) == ReadChunks(chunks[..k], parse)
  {
    var st := ReadChunks(chunks[..k], parse);
    ChunkAfterDone(st, parse);
    FoldAtFixedPoint(st, chunks[k..], ChunkWith(parse));
    assert chunks == chunks[..k] + chunks[k..];
    FoldAppend(Start, chunks[..k], chunks[k..], ChunkWith(parse));
  }

  /** After `[DONE]` no chunk changes anything. */
  lemma ChunkAfterDone(st: Scan, parse: string -> Option<StreamChunk>)
    requires st.done
    ensures forall chunk :: ChunkWith(parse)(st, chunk) == st
  {
    forall chunk | true
      ensures ChunkWith(parse)(st, chunk) == st
    {
      FeedAfterDone(st, Split(chunk, '\n'), parse);
    }
  }

  /** The inner `for` loop over the lines of one chunk, which stops the
      whole generator at `[DONE]`: the frames after the chunk, and whether the
      stream has ended. */
  method FeedLines(frames0: seq<StreamChunk>, lines: seq<string>, parse: string -> Option<StreamChunk>)
    returns (frames: seq<StreamChunk>, done: bool)
    ensures Feed(Scan(frames0, false), lines, parse) == Scan(frames, done)
  {
    ghost var st := Scan(frames0, false);
    frames := frames0;
    var j := 0;
    while j < |lines|
      invariant 0 <= j <= |lines|
      invariant Feed(st, lines[..j], parse) == Scan(frames, false)
    {
      FeedLast(st, lines[..j + 1], parse);
      assert lines[..j + 1][..j] == lines[..j];
      var line := lines[j];
      if StartsWith(line, "data: ") {
        var data := Trim(line[6..]);
        if data == "[DONE]" {
          FeedStopsAt(st, lines, j, parse);
          return frames, true;
        }
        match parse(data) {
          case Some(frame) => frames := frames + [frame];
          case None =>
        }
      }
      j := j + 1;
    }
    assert lines[..j] == lines;
    return frames, false;
  }

  /** The `while (true)` read loop: each decoded chunk split into lines and
      fed in turn, returning at `[DONE]`. */
  method StreamFrames(chunks: seq<string>, parse: string -> Option<StreamChunk>) returns (frames: seq<StreamChunk>)
    ensures frames == Frames(chunks, parse)
  {
    frames := [];
    var i := 0;
    while i < |chunks|
      invariant 0 <= i <= |chunks|
      invariant ReadChunks(chunks[..i], parse) == Scan(frames, false)
    {
      ReadChunksLast(chunks[..i + 1], parse);
      assert chunks[..i + 1][..i] == chunks[..i];
      var lines := Split(chunks[i], '\n');
      var done;
      frames, done := FeedLines(frames, lines, parse);
      if done {
        ReadChunksAfterDone(chunks, i + 1, parse);
        return;
      }
      i := i + 1;
    }
    assert chunks[..i] == chunks;
  }

  /** All lines of all chunks, each chunk split on its own: a line cut in two
      by a read boundary stays two lines. */
  function AllLines(chunks: seq<string>): seq<string>
    decreases |chunks|
  {
    if |chunks| == 0 then [] else AllLines(chunks[..|chunks| - 1]) + Split(chunks[|chunks| - 1], '\n')
  }

  /** Reading the chunks is feeding their lines in order, chunks in read
      order and lines in order within each chunk. */
  lemma {:induction false} ReadChunksIsFeedLines(chunks: seq<string>, parse: string -> Option<StreamChunk>)
    ensures ReadChunks(chunks, parse) == Feed(Start, AllLines(chunks), parse)
    decreases |chunks|
  {
    if |chunks| > 0 {
      var n := |chunks|;
      ReadChunksIsFeedLines(chunks[..n - 1], parse);
      FeedAppend(Start, AllLines(chunks[..n - 1]), Split(chunks[n - 1], '\n'), parse);
    }
  }

  /** Frames are only ever appended: what has been yielded stays yielded,
      in order. */
  lemma {:induction false} FeedExtends(st: Scan, lines: seq<string>, parse: string -> Option<StreamChunk>)
    ensures var r := Feed(st, lines, parse);
      |st.frames| <= |r.frames| && r.frames[..|st.frames|] == st.frames
    decreases |lines|
  {
    if |lines| > 0 {
      var init := lines[..|lines| - 1];
      FeedExtends(st, init, parse);
      FeedLast(st, lines, parse);
      var mid := Feed(st, init, parse);
      StepExtends(mid, lines[|lines| - 1], parse);
      PrefixOfPrefix(Feed(st, lines, parse).frames, mid.frames, st.frames);
    }
  }

  /** One line appends at most one frame and keeps the others. */
  lemma StepExtends(st: Scan, line: string, parse: string -> Option<StreamChunk>)
    ensures var r := Step(st, line, parse);
      |st.frames| <= |r.frames| <= |st.frames| + 1 && r.frames[..|st.frames|] == st.frames
  {
    StepOnExtends(st, Payload(line), parse);
  }

  lemma StepOnExtends(st: Scan, payload: Option<string>, parse: string -> Option<StreamChunk>)
    ensures var r := StepOn(st, payload, parse);
      |st.frames| <= |r.frames| <= |st.frames| + 1 && r.frames[..|st.frames|] == st.frames
  {
    assert st.frames[..|st.frames|] == st.frames;
    if !st.done && payload.Some? && payload.value != DoneSentinel {
      match parse(payload.value)
      case None =>
      case Some(frame) =>
        assert (st.frames + [frame])[..|st.frames|] == st.frames;
    }
  }

  lemma PrefixOfPrefix<T>(a: seq<T>, b: seq<T>, c: seq<T>)
    requires |b| <= |a| && a[..|b|] == b
    requires |c| <= |b| && b[..|c|] == c
    ensures |c| <= |a| && a[..|c|] == c
  {
    assert a[..|c|] == a[..|b|][..|c|];
  }

  /** Everything after a `[DONE]` line is ignored, and the stream has
      ended with the frames read before it. */
  lemma FeedThroughDone(st: Scan, a: seq<string>, line: string, b: seq<string>, parse: string -> Option<StreamChunk>)
    requires Payload(line) == Some(DoneSentinel)
    ensures Feed(st, a + [line] + b, parse) == Scan(Feed(st, a, parse).frames, true)
  {
    FeedAppend(st, a + [line], b, parse);
    FeedOne(st, a, line, parse);
    FeedAfterDone(Feed(st, a + [line], parse), b, parse);
  }

  /** Within one run of lines, a `[DONE]` line at position k ends the
      stream with the frames of the lines before it. */
  lemma FeedStopsAt(st: Scan, lines: seq<string>, k: int, parse: string -> Option<StreamChunk>)
    requires 0 <= k < |lines| && Payload(lines[k]) == Some(DoneSentinel)
    ensures Feed(st, lines, parse) == Scan(Feed(st, lines[..k], parse).frames, true)
  {
    assert lines == lines[..k] + [lines[k]] + lines[k + 1..];
    FeedThroughDone(st, lines[..k], lines[k], lines[k + 1..], parse);
  }

  /** The stream ends at a `[DONE]` line: the frames are those of the lines
      before it, and no later line, in the same chunk or a later one, yields
      a frame. */
  lemma DoneEndsStream(chunks: seq<string>, k: int, parse: string -> Option<StreamChunk>)
    requires 0 <= k < |AllLines(chunks)|
    requires Payload(AllLines(chunks)[k]) == Some(DoneSentinel)
    ensures ReadChunks(chunks, parse).done
    ensures Frames(chunks, parse) == Feed(Start, AllLines(chunks)[..k], parse).frames
  {
    ReadChunksIsFeedLines(chunks, parse);
    FeedStopsAt(Start, AllLines(chunks), k, parse);
  }

  /** Lines that are not data lines change nothing. */
  lemma {:induction false} FeedIgnoresOtherLines(st: Scan, lines: seq<string>, parse: string -> Option<StreamChunk>)
    requires forall i :: 0 <= i < |lines| ==> Payload(lines[i]).None?
    ensures Feed(st, lines, parse) == st
    decreases |lines|
  {
    if |lines| > 0 {
      FeedIgnoresOtherLines(st, lines[..|lines| - 1], parse);
      FeedLast(st, lines, parse);
    }
  }

  /** A line that yields nothing and does not end the stream (a non-data
      line, or a payload that fails to parse) can be dropped without changing
      the result: a malformed frame is skipped and reading goes on. */
  lemma SkippedLine(st: Scan, a: seq<string>, line: string, b: seq<string>, parse: string -> Option<StreamChunk>)
    requires Payload(line).None? || (Payload(line).value != DoneSentinel && parse(Payload(line).value).None?)
    ensures Feed(st, a + [line] + b, parse) == Feed(st, a + b, parse)
  {
    FeedAppend(st, a + [line], b, parse);
    FeedOne(st, a, line, parse);
    FeedAppend(st, a, b, parse);
  }

  /** Among lines before any `[DONE]`, a payload that parses is yielded
      right after the frames already read. */
  lemma ParsedLineYields(st: Scan, line: string, parse: string -> Option<StreamChunk>)
    requires !st.done
    requires Payload(line).Some? && Payload(line).value != DoneSentinel
    requires parse(Payload(line).value).Some?
    ensures Feed(st, [line], parse) == Scan(st.frames + [parse(Payload(line).value).value], false)
  {
    FeedOne(st, [], line, parse);
    assert [] + [line] == [line];
  }

  /** `line` is a data line, not `[DONE]`, whose payload parses to
      `frame`. */
  predicate Yields(line: string, parse: string -> Option<StreamChunk>, frame: StreamChunk) {
    Payload(line).Some? && Payload(line).value != DoneSentinel && parse(Payload(line).value) == Some(frame)
  }

  /** A frame a line adds is the parse of that line's payload. */
  lemma StepYields(st: Scan, line: string, parse: string -> Option<StreamChunk>)
    requires |st.frames| < |Step(st, line, parse).frames|
    ensures Yields(line, parse, Step(st, line, parse).frames[|st.frames|])
  {
  }

  /** Every frame yielded after those already read is the parse of the
      payload of some data line that is not `[DONE]`. */
  lemma {:induction false} FramesComeFromLines(st: Scan, lines: seq<string>, parse: string -> Option<StreamChunk>, k: int)
    requires |st.frames| <= k < |Feed(st, lines, parse).frames|
    ensures exists i :: 0 <= i < |lines| && Yields(lines[i], parse, Feed(st, lines, parse).frames[k])
    decreases |lines|
  {
    if |lines| > 0 {
      var init, last := lines[..|lines| - 1], lines[|lines| - 1];
      FeedLast(st, lines, parse);
      var mid := Feed(st, init, parse);
      StepExtends(mid, last, parse);
      var f := Feed(st, lines, parse).frames[k];
      if k < |mid.frames| {
        assert mid.frames[k] == f;
        FramesComeFromLines(st, init, parse, k);
        var i :| 0 <= i < |init| && Yields(init[i], parse, f);
        assert lines[i] == init[i];
      } else {
        StepYields(mid, last, parse);
        assert Yields(lines[|lines| - 1], parse, f);
      }
    }
  }

  /** Two reads of one line each, neither a data line, yield nothing. */
  lemma OtherReadsYieldNothing(a: string, b: string, parse: string -> Option<StreamChunk>)
    requires '\n' !in a && '\n' !in b
    requires Payload(a).None? && Payload(b).None?
    ensures Frames([a, b], parse) == []
  {
    var chunks := [a, b];
    SplitWithoutSeparator(a, '\n');
    SplitWithoutSeparator(b, '\n');
    assert [a][..0] == [];
    assert AllLines([a]) == [a];
    assert chunks[..1] == [a];
    assert AllLines(chunks) == AllLines([a]) + [b];
    FeedIgnoresOtherLines(Start, [a, b], parse);
    ReadChunksIsFeedLines(chunks, parse);
  }

  /** A data line cut across two reads is not reassembled: `"data: " + x`
      read as `"dat"` and then `"a: " + x` yields nothing, whatever `x` parses
      to, although the whole line carries the payload `x`. */
  lemma SplitLineNotReassembled(x: string, parse: string -> Option<StreamChunk>)
    requires '\n' !in x
    ensures "dat" + ("a: " + x) == DataPrefix + x
    ensures Payload(DataPrefix + x) == Some(Trim(x))
    ensures Frames(["dat", "a: " + x], parse) == []
  {
    CutDataLine(x);
    DataLinePayload(x);
    SplitReadsYieldNothing(x, parse);
  }

  /** The two halves `"dat"` and `"a: " + x`, read one after the other,
      yield nothing. */
  lemma SplitReadsYieldNothing(x: string, parse: string -> Option<StreamChunk>)
    requires '\n' !in x
    ensures Frames(["dat", "a: " + x], parse) == []
  {
    OtherLine("a: " + x);
    OtherReadsYieldNothing("dat", "a: " + x, parse);
  }

  /** `"dat"` and `"a: " + x` are the two halves of `"data: " + x`. */
  lemma CutDataLine(x: string)
    ensures "dat" + ("a: " + x) == DataPrefix + x
  {
    assert "dat" + "a: " == DataPrefix;
    assert "dat" + ("a: " + x) == ("dat" + "a: ") + x;
  }

  /** The payload of `"data: " + x` is `x` trimmed. */
  lemma DataLinePayload(x: string)
    ensures Payload(DataPrefix + x) == Some(Trim(x))
  {
    assert (DataPrefix + x)[..|DataPrefix|] == DataPrefix;
    assert (DataPrefix + x)[|DataPrefix|..] == x;
  }

  /** A line that does not start with 'd' is not a data line. */
  lemma OtherLine(line: string)
    requires |line| > 0 && line[0] != 'd'
    ensures Payload(line).None?
  {
    assert DataPrefix[0] == 'd';
  }

  // ---------------------------------------------------------------------
  // Files and messages

  predicate IsImage(file: UploadedFile) {
    StartsWith(file.mimeType, "image/")
  }

  /** Text files, PDFs by type, and files named `*.pdf` are inlined as
      decoded text. */
  predicate IsInlined(file: UploadedFile) {
    StartsWith(file.mimeType, "text/") || file.mimeType == "application/pdf" || EndsWith(file.name, ".pdf")
  }

  /** `prepareFileForMessage(file)`, with `atob` injected. */
  function PrepareFile(file: UploadedFile, atob: string -> string): string {
    if IsImage(file) then "data:" + file.mimeType + ";base64," + file.data
    else if IsInlined(file) then "[File: " + file.name + "]\n" + atob(file.data)
    else "[Uploaded file: " + file.name + " (" + file.mimeType + ")]"
  }

  /** The three outcomes of `prepareFileForMessage`, in priority order. */
  datatype FileKind = DataUrl | InlineText | Placeholder

  function KindOf(file: UploadedFile): FileKind {
    if IsImage(file) then DataUrl else if IsInlined(file) then InlineText else Placeholder
  }

  /** Reads the kind back from a prepared string by its prefix. */
  function KindOfPrepared(s: string): FileKind {
    if StartsWith(s, "data:") then DataUrl
    else if StartsWith(s, "[File: ") then InlineText
    else Placeholder
  }

  /** The prepared string tells which branch was taken, and each branch
      carries what it promises: the image's type and base64 data, the inlined
      file's decoded data after its `[File: name]` line. An image is a data
      URL even when its name ends in `.pdf`. */
  lemma PrepareFileKinds(file: UploadedFile, atob: string -> string)
    ensures KindOfPrepared(PrepareFile(file, atob)) == KindOf(file)
    ensures KindOf(file) == DataUrl ==> PrepareFile(file, atob) == "data:" + file.mimeType + ";base64," + file.data
    ensures KindOf(file) == InlineText ==>
      var head := "[File: " + file.name + "]\n";
      StartsWith(PrepareFile(file, atob), head) && PrepareFile(file, atob)[|head|..] == atob(file.data)
    ensures KindOf(file) != InlineText ==> forall other: string -> string :: PrepareFile(file, other) == PrepareFile(file, atob)
  {
    var s := PrepareFile(file, atob);
    if KindOf(file) == InlineText {
      assert s[..7] == "[File: ";
      assert s[0] != "data:"[0];
    } else if KindOf(file) == Placeholder {
      assert s[0] == '[' && s[1] == 'U';
      assert s[0] != "data:"[0];
      assert s[1] != "[File: "[1];
    }
  }

  /** The item for one file of a multimodal message. */
  function FilePart(file: UploadedFile, atob: string -> string): ContentPart {
    if IsImage(file) then ImageUrlPart(PrepareFile(file, atob)) else TextPart(PrepareFile(file, atob))
  }

  /** The item-building step of the multimodal loop, for a given `atob`. */
  function PartOf(atob: string -> string): UploadedFile -> ContentPart {
    file => FilePart(file, atob)
  }

  /** The appending step of the text-only loop, for a given `atob`. */
  function AttachmentOf(atob: string -> string): UploadedFile -> string {
    file => "\n\n" + PrepareFile(file, atob)
  }

  /** One item per file, in file order. */
  function FileParts(files: seq<UploadedFile>, atob: string -> string): seq<ContentPart> {
    MapSeq(files, PartOf(atob))
  }

  /** `"\n\n" + prepared(file)` for each file, in order. */
  function Attachments(files: seq<UploadedFile>, atob: string -> string): string {
    ConcatMap(files, AttachmentOf(atob))
  }

  predicate HasImages(files: seq<UploadedFile>) {
    exists k :: 0 <= k < |files| && IsImage(files[k])
  }

  /** The text item pushed first when `content.trim()` is not empty, that
      is, when `content` is not blank (`TrimEmptyIffBlank`). */
  function LeadItems(content: string): (r: seq<ContentPart>)
    ensures |r| == (if IsBlank(content) then 0 else 1)
    ensures |r| == 1 ==> r[0] == TextPart(content)
  {
    if IsBlank(content) then [] else [TextPart(content)]
  }

  /** The message `createMessageWithFiles(content, files)` returns. */
  function MessageWithFiles(content: string, files: seq<UploadedFile>, atob: string -> string): OpenRouterMessage {
    if |files| == 0 then OpenRouterMessage(User, Text(content))
    else if HasImages(files) then OpenRouterMessage(User, Parts(LeadItems(content) + FileParts(files, atob)))
    else OpenRouterMessage(User, Text(content + Attachments(files, atob)))
  }

  /** With no file the text goes out unchanged. */
  lemma MessageWithoutFiles(content: string, atob: string -> string)
    ensures MessageWithFiles(content, [], atob) == OpenRouterMessage(User, Text(content))
  {
  }

  /** With an image and a text that is not blank, the text item comes
      first. */
  lemma ImageMessageWithText(content: string, files: seq<UploadedFile>, atob: string -> string)
    requires HasImages(files) && !IsBlank(content)
    ensures MessageWithFiles(content, files, atob).content == Parts([TextPart(content)] + FileParts(files, atob))
  {
  }

  /** With an image and a blank text, there is no text item at all. */
  lemma ImageMessageBlankText(content: string, files: seq<UploadedFile>, atob: string -> string)
    requires HasImages(files) && IsBlank(content)
    ensures MessageWithFiles(content, files, atob).content == Parts(FileParts(files, atob))
  {
    assert [] + FileParts(files, atob) == FileParts(files, atob);
  }

  /** With an image among the files: an item array that starts with a text
      item for `content` exactly when `content` is not blank, followed by one
      item per file in order (the k-th file at offset k after the text item),
      an image URL exactly for an image. */
  lemma MessageWithImages(content: string, files: seq<UploadedFile>, atob: string -> string, k: int)
    requires HasImages(files) && 0 <= k < |files|
    ensures MessageWithFiles(content, files, atob).role == User
    ensures MessageWithFiles(content, files, atob).content.Parts?
    ensures var parts := MessageWithFiles(content, files, atob).content.parts;
      var lead := if IsBlank(content) then 0 else 1;
      && |parts| == lead + |files|
      && (lead == 1 ==> parts[0] == TextPart(content))
      && parts[lead + k] == FilePart(files[k], atob)
      && (parts[lead + k].ImageUrlPart? <==> IsImage(files[k]))
  {
    var lead := LeadItems(content);
    var parts := lead + FileParts(files, atob);
    assert MessageWithFiles(content, files, atob) == OpenRouterMessage(User, Parts(parts));
    PartsAfter(lead, files, atob, k);
    FilePartKind(files[k], atob);
    if |lead| == 1 {
      assert parts[0] == lead[0];
    }
  }

  /** The k-th file's item sits k places after the leading items. */
  lemma PartsAfter(lead: seq<ContentPart>, files: seq<UploadedFile>, atob: string -> string, k: int)
    requires 0 <= k < |files|
    ensures |lead + FileParts(files, atob)| == |lead| + |files|
    ensures (lead + FileParts(files, atob))[|lead| + k] == FilePart(files[k], atob)
  {
  }

  /** A file's item is an image URL exactly for an image. */
  lemma FilePartKind(file: UploadedFile, atob: string -> string)
    ensures FilePart(file, atob).ImageUrlPart? <==> IsImage(file)
  {
  }

  /** With files but no image: one text, `content` as given (even blank)
      with every prepared file after a blank line, in file order. */
  lemma MessageWithoutImages(content: string, files: seq<UploadedFile>, atob: string -> string, k: int)
    requires !HasImages(files) && 0 <= k < |files|
    ensures MessageWithFiles(content, files, atob) == OpenRouterMessage(User, Text(content + Attachments(files, atob)))
    ensures Attachments(files, atob)
      == Attachments(files[..k], atob) + ("\n\n" + PrepareFile(files[k], atob)) + Attachments(files[k + 1..], atob)
  {
    ConcatMapAt(files, k, AttachmentOf(atob));
  }

  /** The multimodal `for` loop: one item pushed per file, after the items
      already in `contentArray`. */
  method PushFileParts(contentArray: seq<ContentPart>, files: seq<UploadedFile>, atob: string -> string)
    returns (parts: seq<ContentPart>)
    ensures parts == contentArray + FileParts(files, atob)
  {
    parts := contentArray;
    var i := 0;
    while i < |files|
      invariant 0 <= i <= |files|
      invariant parts == contentArray + MapSeq(files[..i], PartOf(atob))
    {
      assert files[..i + 1][..i] == files[..i];
      var file := files[i];
      if StartsWith(file.mimeType, "image/") {
        var url := PrepareFile(file, atob);
        parts := parts + [ImageUrlPart(url)];
      } else {
        var fileContent := PrepareFile(file, atob);
        parts := parts + [TextPart(fileContent)];
      }
      i := i + 1;
    }
    assert files[..i] == files;
  }

  /** The text-only `for` loop: each prepared file appended after a blank
      line. */
  method AppendFileTexts(fullContent: string, files: seq<UploadedFile>, atob: string -> string)
    returns (text: string)
    ensures text == fullContent + Attachments(files, atob)
  {
    text := fullContent;
    var i := 0;
    while i < |files|
      invariant 0 <= i <= |files|
      invariant text == fullContent + ConcatMap(files[..i], AttachmentOf(atob))
    {
      assert files[..i + 1][..i] == files[..i];
      var fileContent := PrepareFile(files[i], atob);
      text := text + "\n\n" + fileContent;
      i := i + 1;
    }
    assert files[..i] == files;
  }

  /** `createMessageWithFiles`: an item array when some file is an image,
      one text otherwise. */
  method CreateMessageWithFiles(content: string, files: seq<UploadedFile>, atob: string -> string)
    returns (message: OpenRouterMessage)
    ensures message == MessageWithFiles(content, files, atob)
  {
    if |files| == 0 {
      return OpenRouterMessage(User, Text(content));
    }
    var hasImages := exists k :: 0 <= k < |files| && StartsWith(files[k].mimeType, "image/");
    if hasImages {
      var contentArray: seq<ContentPart> := [];
      if Trim(content) != "" {
        contentArray := contentArray + [TextPart(content)];
      }
      TrimEmptyIffBlank(content);
      assert contentArray == LeadItems(content);
      contentArray := PushFileParts(contentArray, files, atob);
      return OpenRouterMessage(User, Parts(contentArray));
    } else {
      var fullContent := AppendFileTexts(content, files, atob);
      return OpenRouterMessage(User, Text(fullContent));
    }
  }
}
