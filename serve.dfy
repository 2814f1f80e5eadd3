/** The stand-alone server (inf_llm/serve.py): the readiness endpoint and the
    `/chat` endpoint, which validates the request, turns the history into a
    chat-message list or a plain transcript, and answers with a stream of
    `data: ` frames or with one JSON reply. */
module Serve {

  import opened Wrappers
  import opened Strings
  import opened DeltaStream

  /** One entry of the request's `history`; `role` and `content` are absent
      when the entry has no such key. */
  datatype Turn = Turn(role: Option<string>, content: Option<string>)

  /** The decoded request body: `prompt` is absent when the key is missing. */
  datatype Body = Body(prompt: Option<string>, history: seq<Turn>)

  datatype ChatMessage = ChatMessage(role: string, content: string)

  /** The text the generator is asked to continue: a message list for the chat
      template, or a plain transcript. */
  datatype Prompt = NoPrompt | ChatPrompt(messages: seq<ChatMessage>) | PlainPrompt(text: string)

  datatype JsonBody = ReadyBody(ready: bool) | ErrorBody(error: string) | ReplyBody(response: string)

  /** `EventStream` is a streamed reply that ends normally; `BrokenStream` is
      one whose generator raised before producing anything, so the connection
      ends without a single frame; `InternalError` is an exception that
      escaped the handler. */
  datatype Response =
    | Json(status: nat, body: JsonBody)
    | EventStream(frames: seq<string>)
    | BrokenStream
    | InternalError

  const ChatModels: seq<string> := ["llama-3", "llama-3-inst", "qwen", "mistral-inst", "vicuna"]
  const LoadingError: string := "Model is still loading. Please wait."
  const NoPromptError: string := "No prompt provided."

  /** `GET /status`. */
  function Status(ready: bool): (r: Response)
    ensures r.Json? && r.status == 200 && r.body == ReadyBody(ready)
  {
    Json(200, ReadyBody(ready))
  }

  /** The lower-cased model path contains one of the listed substrings. */
  predicate IsChatModel(modelName: string)
  {
    exists k | 0 <= k < |ChatModels| :: Contains(ToLower(modelName), ChatModels[k])
  }

  /** The entry "llama-3-inst" is redundant: a name containing it contains
      "llama-3", so four of the five substrings decide the same thing. */
  lemma ChatModelFourNames(modelName: string)
    ensures IsChatModel(modelName) <==>
      exists k | 0 <= k < |ChatModels| && k != 1 :: Contains(ToLower(modelName), ChatModels[k])
  {
    var name := ToLower(modelName);
    if Contains(name, ChatModels[1]) {
      var i :| 0 <= i <= |name| - |ChatModels[1]| && OccursAt(name, ChatModels[1], i);
      assert name[i..i + 7] == name[i..i + 12][..7];
      assert OccursAt(name, ChatModels[0], i);
    }
  }

  /** The history as chat messages: `user` turns stay `user`, `bot` turns
      become `assistant`, every other entry is dropped; a missing content is
      the empty string. */
  function MappedHistory(history: seq<Turn>): seq<ChatMessage>
  {
    if history == [] then []
    else
      var t := history[|history| - 1];
      var content := if t.content.Some? then t.content.value else "";
      MappedHistory(history[..|history| - 1])
      + (if t.role == Some("user") then [ChatMessage("user", content)]
         else if t.role == Some("bot") then [ChatMessage("assistant", content)]
         else [])
  }

  /** The plain transcript of the history: a `User: ` or `Model: ` line per
      user or bot turn. */
  function Transcript(history: seq<Turn>): string
  {
    if history == [] then ""
    else
      var t := history[|history| - 1];
      var content := if t.content.Some? then t.content.value else "";
      Transcript(history[..|history| - 1])
      + (if t.role == Some("user") then "User: " + content + "\n"
         else if t.role == Some("bot") then "Model: " + content + "\n"
         else "")
  }

  /** How a chat message reads in the plain transcript. */
  function TranscriptLine(m: ChatMessage): string
  {
    (if m.role == "user" then "User: " else "Model: ") + m.content + "\n"
  }

  function TranscriptOf(messages: seq<ChatMessage>): string
  {
    if messages == [] then ""
    else TranscriptOf(messages[..|messages| - 1]) + TranscriptLine(messages[|messages| - 1])
  }

  /** Every mapped message is a `user` or an `assistant` message and there is
      at most one per history entry. */
  lemma {:induction false} MappedHistoryShape(history: seq<Turn>)
    ensures |MappedHistory(history)| <= |history|
    ensures forall m | m in MappedHistory(history) :: m.role == "user" || m.role == "assistant"
  {
    if history != [] {
      MappedHistoryShape(history[..|history| - 1]);
    }
  }

  lemma TranscriptOfAppend(xs: seq<ChatMessage>, ys: seq<ChatMessage>)
    ensures TranscriptOf(xs + ys) == TranscriptOf(xs) + TranscriptOf(ys)
    decreases |ys|
  {
    if ys == [] {
      assert xs + ys == xs;
    } else {
      var init, last := ys[..|ys| - 1], ys[|ys| - 1];
      assert (xs + ys)[..|xs + ys| - 1] == xs + init;
      assert (xs + ys)[|xs + ys| - 1] == last;
      assert TranscriptOf(xs + ys) == TranscriptOf(xs + init) + TranscriptLine(last);
      TranscriptOfAppend(xs, init);
      assert TranscriptOf(ys) == TranscriptOf(init) + TranscriptLine(last);
    }
  }

  /** The two prompt forms keep the same turns: the plain transcript is the
      chat-message list written out line by line. */
  lemma {:induction false} TranscriptMatchesMessages(history: seq<Turn>)
    ensures Transcript(history) == TranscriptOf(MappedHistory(history))
  {
    if history != [] {
      var init := history[..|history| - 1];
      var t := history[|history| - 1];
      var content := if t.content.Some? then t.content.value else "";
      TranscriptMatchesMessages(init);
      var tail := if t.role == Some("user") then [ChatMessage("user", content)]
                  else if t.role == Some("bot") then [ChatMessage("assistant", content)]
                  else [];
      TranscriptOfAppend(MappedHistory(init), tail);
      if tail != [] {
        assert tail[..0] == [];
      }
    }
  }

  /** The chat-path loop: builds the message list from the history, then the
      prompt itself as the last user message. */
  method BuildMessages(history: seq<Turn>, prompt: string) returns (messages: seq<ChatMessage>)
    ensures messages == MappedHistory(history) + [ChatMessage("user", prompt)]
  {
    messages := [];
    var i := 0;
    while i < |history|
      invariant 0 <= i <= |history|
      invariant messages == MappedHistory(history[..i])
    {
      var turn := history[i];
      var content := if turn.content.Some? then turn.content.value else "";
      assert history[..i + 1][..i] == history[..i];
      if turn.role == Some("user") {
        messages := messages + [ChatMessage("user", content)];
      } else if turn.role == Some("bot") {
        messages := messages + [ChatMessage("assistant", content)];
      }
      i := i + 1;
    }
    assert history[..i] == history;
    messages := messages + [ChatMessage("user", prompt)];
  }

  /** The plain-path loop: the transcript followed by the open model turn. */
  method BuildTranscript(history: seq<Turn>, prompt: string) returns (text: string)
    ensures text == Transcript(history) + "User: " + prompt + "\nModel:"
  {
    text := "";
    var i := 0;
    while i < |history|
      invariant 0 <= i <= |history|
      invariant text == Transcript(history[..i])
    {
      var turn := history[i];
      var content := if turn.content.Some? then turn.content.value else "";
      assert history[..i + 1][..i] == history[..i];
      if turn.role == Some("user") {
        text := text + "User: " + content + "\n";
      } else if turn.role == Some("bot") {
        text := text + "Model: " + content + "\n";
      }
      i := i + 1;
    }
    assert history[..i] == history;
    text := text + "User: " + prompt + "\nModel:";
  }

  /** One server-sent frame. */
  function Frame(d: string): string
  {
    "data: " + d + "\n\n"
  }

  /** The frames for a list of deltas, in order. */
  function Frames(ds: seq<string>): seq<string>
  {
    if ds == [] then [] else Frames(ds[..|ds| - 1]) + [Frame(ds[|ds| - 1])]
  }

  /** One frame per delta, each framing its delta. */
  lemma {:induction false} FramesSpec(ds: seq<string>)
    ensures |Frames(ds)| == |ds|
    ensures forall k :: 0 <= k < |ds| ==> Frames(ds)[k] == Frame(ds[k])
  {
    if ds != [] {
      FramesSpec(ds[..|ds| - 1]);
    }
  }

  lemma FramesSnoc(ds: seq<string>, d: string)
    ensures Frames(ds + [d]) == Frames(ds) + [Frame(d)]
  {
    assert (ds + [d])[..|ds|] == ds;
  }

  /** The loop of `token_stream`: a frame for each non-empty delta. */
  method StreamFrames(texts: seq<string>) returns (frames: seq<string>)
    ensures frames == Frames(Deltas(texts))
  {
    frames := [];
    var lastText := "";
    ghost var sent: seq<string> := [];
    var i := 0;
    while i < |texts|
      invariant 0 <= i <= |texts|
      invariant sent == Deltas(texts[..i])
      invariant frames == Frames(sent)
      invariant lastText == LastText(texts[..i])
    {
      var text := texts[i];
      var newText := Suffix(text, lastText);
      lastText := text;
      DeltasStep(texts, i);
      if newText != [] {
        FramesSnoc(sent, newText);
        frames := frames + [Frame(newText)];
        sent := sent + [newText];
      }
      i := i + 1;
    }
    assert texts[..i] == texts;
  }

  /** `token_stream`: the frames of the deltas, then one error frame when the
      generator raises. */
  method TokenStream(gen: Generation) returns (frames: seq<string>)
    ensures frames == Frames(Deltas(gen.texts))
                      + (if gen.error.Some? then [Frame("[Error: " + gen.error.value + "]")] else [])
  {
    frames := StreamFrames(gen.texts);
    if gen.error.Some? {
      frames := frames + [Frame("[Error: " + gen.error.value + "]")];
    }
  }

  /** The non-streaming loop: keeps only the newest text. */
  method FinalOutput(texts: seq<string>) returns (output: string)
    ensures output == LastText(texts)
  {
    output := "";
    for i := 0 to |texts|
      invariant output == LastText(texts[..i])
    {
      output := texts[i];
      assert texts[..i + 1][i] == texts[i];
    }
    assert texts[..|texts|] == texts;
  }

  /** `POST /chat`. `body` is absent when the request body is not valid JSON;
      `streamParam` is the `stream` query parameter, if given; `gen` is what
      the generator does with the prompt. The generator parameters name the
      stop-token list, which only the chat-model path binds, so on the plain
      path building them raises. */
  method ChatApi(ready: bool, body: Option<Body>, modelName: string, streamParam: Option<string>,
                 gen: Generation)
    returns (response: Response, prompt: Prompt)
    ensures !ready ==> response == Json(503, ErrorBody(LoadingError)) && prompt == NoPrompt
    ensures ready && body.None? ==> response == InternalError && prompt == NoPrompt
    ensures ready && body.Some? && (body.value.prompt == None || body.value.prompt == Some("")) ==>
      response == Json(400, ErrorBody(NoPromptError)) && prompt == NoPrompt
    ensures ready && body.Some? && body.value.prompt.Some? && body.value.prompt.value != "" ==>
      var p := body.value.prompt.value;
      var history := body.value.history;
      var streaming := streamParam.None? || ToLower(streamParam.value) != "false";
      if IsChatModel(modelName) then
        && prompt == ChatPrompt(MappedHistory(history) + [ChatMessage("user", p)])
        && response == (if streaming then EventStream(Frames(Deltas(gen.texts))
                          + (if gen.error.Some? then [Frame("[Error: " + gen.error.value + "]")] else []))
                        else if gen.error.Some? then Json(500, ErrorBody(gen.error.value))
                        else Json(200, ReplyBody(LastText(gen.texts))))
      else
        && prompt == PlainPrompt(Transcript(history) + "User: " + p + "\nModel:")
        && response == (if streaming then BrokenStream else InternalError)
  {
    prompt := NoPrompt;
    if !ready {
      return Json(503, ErrorBody(LoadingError)), prompt;
    }
    if body.None? {
      return InternalError, prompt;
    }
    var data := body.value;
    if data.prompt.None? || data.prompt.value == "" {
      return Json(400, ErrorBody(NoPromptError)), prompt;
    }
    var p := data.prompt.value;
    var chatModel := IsChatModel(modelName);
    if chatModel {
      var messages := BuildMessages(data.history, p);
      prompt := ChatPrompt(messages);
    } else {
      var text := BuildTranscript(data.history, p);
      prompt := PlainPrompt(text);
    }
    var streaming := true;
    if streamParam.Some? && ToLower(streamParam.value) == "false" {
      streaming := false;
    }
    if !chatModel {
      // The stop-token list is unbound here: the stream breaks on its first
      // step, and the non-streaming branch raises before generating.
      response := if streaming then BrokenStream else InternalError;
      return;
    }
    if streaming {
      var frames := TokenStream(gen);
      response := EventStream(frames);
    } else if gen.error.Some? {
      response := Json(500, ErrorBody(gen.error.value));
    } else {
      var output := FinalOutput(gen.texts);
      response := Json(200, ReplyBody(output));
    }
  }

  /** For a chat model and a generator that only extends its text, the
      streamed frames carry, in order, pieces that add up to the final text. */
  lemma StreamCarriesFinalText(gen: Generation)
    requires PrefixExtending(gen.texts) && gen.error.None?
    ensures var fs := Frames(Deltas(gen.texts));
      && |fs| == |Deltas(gen.texts)|
      && (forall k :: 0 <= k < |fs| ==> StartsWith(fs[k], "data: ") && |fs[k]| > 8)
      && Concat(Deltas(gen.texts)) == LastText(gen.texts)
  {
    var ds := Deltas(gen.texts);
    DeltasConcat(gen.texts);
    FramesSpec(ds);
    forall k | 0 <= k < |ds|
      ensures StartsWith(Frames(ds)[k], "data: ") && |Frames(ds)[k]| > 8
    {
      FrameShape(ds[k]);
    }
  }

  lemma FrameShape(d: string)
    ensures StartsWith(Frame(d), "data: ") && |Frame(d)| == |d| + 8
  {
    assert Frame(d)[..6] == "data: ";
  }
}
