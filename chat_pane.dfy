/** The chat session of the front-end: the pure reducer over a closed set of
    tagged actions, and the hook whose handlers read the state of the render
    that created them (a snapshot) while dispatching into the live store. */
module ChatPane {

  import opened Wrappers
  import opened Strings
  import JsText

  datatype Role = User | Model

  /** What a sent user message keeps of each attached file: its name. */
  datatype FileRef = FileRef(name: string)

  /** A dropped file waiting to be sent. */
  datatype UploadedFile = UploadedFile(name: string, content: string)

  /** `files` is absent (`undefined`) on model messages. */
  datatype Message = Message(role: Role, content: string, files: Option<seq<FileRef>>)

  datatype State = State(
    messages: seq<Message>,
    input: string,
    isLoading: bool,
    isModelReady: bool,
    error: Option<string>,
    isDragActive: bool,
    uploadedFiles: seq<UploadedFile>,
    debugMode: bool,
    isCheckingModel: bool,
    isCreatingChat: bool,
    isReadingFiles: bool)

  /** The action tags; `Unrecognized` stands for any other `type`, which the
      reducer's `default` branch handles. */
  datatype Action =
    | SetInput(input: string)
    | SetMessages(messages: seq<Message>)
    | AddMessage(message: Message)
    | UpdateLastModelMessage(content: string)
    | SetIsLoading(value: bool)
    | SetIsModelReady(value: bool)
    | SetError(error: Option<string>)
    | SetIsDragActive(value: bool)
    | SetUploadedFiles(files: seq<UploadedFile>)
    | SetDebugMode(value: bool)
    | SetIsCheckingModel(value: bool)
    | SetIsCreatingChat(value: bool)
    | SetIsReadingFiles(value: bool)
    | Unrecognized(tag: string)

  const NotReadyError := "Model is not ready. Please wait..."
  const NewChatError := "Failed to create new chat. Please try again."
  const ReadFilesError := "Failed to read one or more files."

  function InitialState(): State
  {
    State([], "", false, false, None, false, [], false, false, false, false)
  }

  /** `messages.map(m => m.role).lastIndexOf("model")`: the index of the last
      model message, or -1 when there is none. */
  function LastModelIndex(msgs: seq<Message>): (r: int)
    ensures -1 <= r < |msgs|
    ensures r >= 0 ==> msgs[r].role == Model
    ensures forall j :: r < j < |msgs| ==> msgs[j].role != Model
  {
    if msgs == [] then -1
    else if msgs[|msgs| - 1].role == Model then |msgs| - 1
    else LastModelIndex(msgs[..|msgs| - 1])
  }

  /** `chatPaneReducer`. */
  function Reduce(s: State, a: Action): State
  {
    match a
    case SetInput(input) => s.(input := input)
    case SetMessages(messages) => s.(messages := messages)
    case AddMessage(message) => s.(messages := s.messages + [message])
    case UpdateLastModelMessage(content) =>
      var idx := LastModelIndex(s.messages);
      if idx == -1 then s
      else s.(messages := s.messages[idx := s.messages[idx].(content := content)])
    case SetIsLoading(value) => s.(isLoading := value)
    case SetIsModelReady(value) => s.(isModelReady := value)
    case SetError(error) => s.(error := error)
    case SetIsDragActive(value) => s.(isDragActive := value)
    case SetUploadedFiles(files) => s.(uploadedFiles := files)
    case SetDebugMode(value) => s.(debugMode := value)
    case SetIsCheckingModel(value) => s.(isCheckingModel := value)
    case SetIsCreatingChat(value) => s.(isCreatingChat := value)
    case SetIsReadingFiles(value) => s.(isReadingFiles := value)
    case Unrecognized(_) => s
  }

  /** The reducer applied to a sequence of dispatches, in order. */
  function ReduceAll(s: State, actions: seq<Action>): State
    decreases |actions|
  {
    if actions == [] then s else ReduceAll(Reduce(s, actions[0]), actions[1..])
  }

  /** Only the message actions change `messages`; every other action changes
      at most the field it names; an unrecognised action changes nothing. */
  lemma ActionsTouchOnlyTheirField(s: State, a: Action)
    ensures var r := Reduce(s, a);
      && (r.messages != s.messages ==> a.SetMessages? || a.AddMessage? || a.UpdateLastModelMessage?)
      && (r.input != s.input ==> a.SetInput?)
      && (r.isLoading != s.isLoading ==> a.SetIsLoading?)
      && (r.isModelReady != s.isModelReady ==> a.SetIsModelReady?)
      && (r.error != s.error ==> a.SetError?)
      && (r.isDragActive != s.isDragActive ==> a.SetIsDragActive?)
      && (r.uploadedFiles != s.uploadedFiles ==> a.SetUploadedFiles?)
      && (r.debugMode != s.debugMode ==> a.SetDebugMode?)
      && (r.isCheckingModel != s.isCheckingModel ==> a.SetIsCheckingModel?)
      && (r.isCreatingChat != s.isCreatingChat ==> a.SetIsCreatingChat?)
      && (r.isReadingFiles != s.isReadingFiles ==> a.SetIsReadingFiles?)
      && (a.Unrecognized? ==> r == s)
  {
    ListFieldsFrame(s, a);
    TextFieldsFrame(s, a);
    DragAndDebugFrame(s, a);
    ProgressFlagsFrame(s, a);
  }

  lemma ListFieldsFrame(s: State, a: Action)
    ensures var r := Reduce(s, a);
      && (r.messages != s.messages ==> a.SetMessages? || a.AddMessage? || a.UpdateLastModelMessage?)
      && (r.uploadedFiles != s.uploadedFiles ==> a.SetUploadedFiles?)
      && (a.Unrecognized? ==> r == s)
  {
    match a {
      case SetInput(_) =>
      case SetMessages(_) =>
      case AddMessage(_) =>
      case UpdateLastModelMessage(_) =>
      case SetIsLoading(_) =>
      case SetIsModelReady(_) =>
      case SetError(_) =>
      case SetIsDragActive(_) =>
      case SetUploadedFiles(_) =>
      case SetDebugMode(_) =>
      case SetIsCheckingModel(_) =>
      case SetIsCreatingChat(_) =>
      case SetIsReadingFiles(_) =>
      case Unrecognized(_) =>
    }
  }

  lemma TextFieldsFrame(s: State, a: Action)
    ensures var r := Reduce(s, a);
      && (r.input != s.input ==> a.SetInput?)
      && (r.error != s.error ==> a.SetError?)
      && (r.isLoading != s.isLoading ==> a.SetIsLoading?)
      && (r.isModelReady != s.isModelReady ==> a.SetIsModelReady?)
  {
    match a {
      case SetInput(_) =>
      case SetMessages(_) =>
      case AddMessage(_) =>
      case UpdateLastModelMessage(_) =>
      case SetIsLoading(_) =>
      case SetIsModelReady(_) =>
      case SetError(_) =>
      case SetIsDragActive(_) =>
      case SetUploadedFiles(_) =>
      case SetDebugMode(_) =>
      case SetIsCheckingModel(_) =>
      case SetIsCreatingChat(_) =>
      case SetIsReadingFiles(_) =>
      case Unrecognized(_) =>
    }
  }

  lemma DragAndDebugFrame(s: State, a: Action)
    ensures var r := Reduce(s, a);
      && (r.isDragActive != s.isDragActive ==> a.SetIsDragActive?)
      && (r.debugMode != s.debugMode ==> a.SetDebugMode?)
  {
    match a {
      case SetInput(_) =>
      case SetMessages(_) =>
      case AddMessage(_) =>
      case UpdateLastModelMessage(_) =>
      case SetIsLoading(_) =>
      case SetIsModelReady(_) =>
      case SetError(_) =>
      case SetIsDragActive(_) =>
      case SetUploadedFiles(_) =>
      case SetDebugMode(_) =>
      case SetIsCheckingModel(_) =>
      case SetIsCreatingChat(_) =>
      case SetIsReadingFiles(_) =>
      case Unrecognized(_) =>
    }
  }

  lemma ProgressFlagsFrame(s: State, a: Action)
    ensures var r := Reduce(s, a);
      && (r.isCheckingModel != s.isCheckingModel ==> a.SetIsCheckingModel?)
      && (r.isCreatingChat != s.isCreatingChat ==> a.SetIsCreatingChat?)
      && (r.isReadingFiles != s.isReadingFiles ==> a.SetIsReadingFiles?)
  {
    match a {
      case SetInput(_) =>
      case SetMessages(_) =>
      case AddMessage(_) =>
      case UpdateLastModelMessage(_) =>
      case SetIsLoading(_) =>
      case SetIsModelReady(_) =>
      case SetError(_) =>
      case SetIsDragActive(_) =>
      case SetUploadedFiles(_) =>
      case SetDebugMode(_) =>
      case SetIsCheckingModel(_) =>
      case SetIsCreatingChat(_) =>
      case SetIsReadingFiles(_) =>
      case Unrecognized(_) =>
    }
  }

  /** `ADD_MESSAGE` appends exactly one message, at the end. */
  lemma AddMessageAppendsOne(s: State, m: Message)
    ensures var r := Reduce(s, AddMessage(m));
      && |r.messages| == |s.messages| + 1
      && r.messages[..|s.messages|] == s.messages
      && r.messages[|s.messages|] == m
      && r == s.(messages := r.messages)
  {
  }

  /** `UPDATE_LAST_MODEL_MESSAGE` replaces the content of the last model
      message, keeping its role and files, and leaves everything else. */
  lemma UpdateReplacesLastModelContent(s: State, content: string, i: nat)
    requires i < |s.messages| && s.messages[i].role == Model
    requires forall j :: i < j < |s.messages| ==> s.messages[j].role != Model
    ensures var r := Reduce(s, UpdateLastModelMessage(content));
      && |r.messages| == |s.messages|
      && r.messages[i] == Message(Model, content, s.messages[i].files)
      && (forall j :: 0 <= j < |s.messages| && j != i ==> r.messages[j] == s.messages[j])
      && r == s.(messages := r.messages)
  {
    var k := LastModelIndex(s.messages);
    assert k == i by {
      assert i <= k;
    }
  }

  /** The update when the model message is the last one. */
  lemma UpdateTrailingModelMessage(s: State, prefix: seq<Message>, m: Message, content: string)
    requires s.messages == prefix + [m] && m.role == Model
    ensures Reduce(s, UpdateLastModelMessage(content)) == s.(messages := prefix + [m.(content := content)])
  {
    assert LastModelIndex(s.messages) == |prefix|;
  }

  /** The update, on a state written as the state it started from with the
      trailing model message's content replaced. */
  lemma RewriteTrailing(s0: State, prefix: seq<Message>, m: Message, before: string, after: string)
    requires m.role == Model
    ensures Reduce(s0.(messages := prefix + [m.(content := before)]), UpdateLastModelMessage(after))
            == s0.(messages := prefix + [m.(content := after)])
  {
    UpdateTrailingModelMessage(s0.(messages := prefix + [m.(content := before)]), prefix, m.(content := before), after);
  }

  /** With no model message present the update is a no-op. */
  lemma UpdateWithoutModelMessageIsNoOp(s: State, content: string)
    requires forall j :: 0 <= j < |s.messages| ==> s.messages[j].role != Model
    ensures Reduce(s, UpdateLastModelMessage(content)) == s
  {
  }

  lemma {:induction false} ReduceAllAppend(s: State, xs: seq<Action>, ys: seq<Action>)
    ensures ReduceAll(s, xs + ys) == ReduceAll(ReduceAll(s, xs), ys)
    decreases |xs|
  {
    if xs == [] {
      assert xs + ys == ys;
    } else {
      assert (xs + ys)[0] == xs[0];
      assert (xs + ys)[1..] == xs[1..] + ys;
      ReduceAllAppend(Reduce(s, xs[0]), xs[1..], ys);
    }
  }

  /** The dispatches of the token callback: after each token, the running
      concatenation of all tokens so far. */
  function TokenUpdates(tokens: seq<string>): (acts: seq<Action>)
    ensures |acts| == |tokens|
  {
    if tokens == [] then []
    else TokenUpdates(tokens[..|tokens| - 1]) + [UpdateLastModelMessage(Concat(tokens))]
  }

  /** While streaming into a trailing model message, its content is the
      in-order concatenation of every token received so far; nothing else
      in the state changes. */
  lemma {:induction false} StreamedContentIsConcatenation(s: State, tokens: seq<string>)
    requires |s.messages| > 0 && s.messages[|s.messages| - 1].role == Model
    requires tokens != []
    ensures var r := ReduceAll(s, TokenUpdates(tokens));
      var n := |s.messages|;
      r == s.(messages := s.messages[..n - 1] + [s.messages[n - 1].(content := Concat(tokens))])
  {
    var n := |s.messages|;
    var prefix := s.messages[..n - 1];
    var init := tokens[..|tokens| - 1];
    var last := UpdateLastModelMessage(Concat(tokens));
    assert TokenUpdates(tokens) == TokenUpdates(init) + [last];
    ReduceAllAppend(s, TokenUpdates(init), [last]);
    var mid := ReduceAll(s, TokenUpdates(init));
    var m := if init == [] then s.messages[n - 1] else s.messages[n - 1].(content := Concat(init));
    if init != [] {
      StreamedContentIsConcatenation(s, init);
    } else {
      assert s.messages == prefix + [s.messages[n - 1]];
    }
    assert mid == s.(messages := prefix + [m]);
    assert ReduceAll(mid, [last]) == Reduce(mid, last);
    UpdateTrailingModelMessage(mid, prefix, m, Concat(tokens));
  }

  /** The guard of `sendMessage`. */
  predicate SendAllowed(s: State)
  {
    JsText.Trim(s.input) != "" && !s.isLoading && !s.isCheckingModel && !s.isCreatingChat && s.isModelReady
  }

  /** `files.map(f => ({ name: f.name }))`. */
  function FileRefs(files: seq<UploadedFile>): (r: seq<FileRef>)
    ensures |r| == |files|
    ensures forall i :: 0 <= i < |files| ==> r[i].name == files[i].name
  {
    if files == [] then [] else [FileRef(files[0].name)] + FileRefs(files[1..])
  }

  /** `files.filter((_, i) => i !== idx)`: the pill removal. */
  function RemoveAt<T>(xs: seq<T>, idx: int): (r: seq<T>)
    ensures 0 <= idx < |xs| ==> r == xs[..idx] + xs[idx + 1..]
    ensures !(0 <= idx < |xs|) ==> r == xs
  {
    if xs == [] then []
    else (if idx == 0 then [] else [xs[0]]) + RemoveAt(xs[1..], idx - 1)
  }

  /** The text of the message appended when the stream rejects. */
  function ErrorText(err: string): string
  {
    "[Error: " + err + "]"
  }

  /** What the token stream did: the tokens delivered, in order, and then
      either normal completion or a rejection with its text. */
  datatype StreamOutcome = StreamOutcome(tokens: seq<string>, failure: Option<string>)

  /** The call a send makes: the arguments handed to `formatInputWithFiles`
      before streaming, or the input given to `simulateModelReply`. */
  datatype Request = StreamRequest(input: string, files: seq<UploadedFile>) | SimulatedRequest(input: string)

  /** The reducer store of `useChatPane` with the hook's handlers. */
  class Store {
    var state: State

    constructor ()
      ensures state == InitialState()
    {
      state := InitialState();
    }

    method Dispatch(a: Action)
      modifies this
      ensures state == Reduce(old(state), a)
    {
      state := Reduce(state, a);
    }

    method SetLoading(value: bool)
      modifies this
      ensures state == old(state).(isLoading := value)
    {
      Dispatch(SetIsLoading(value));
    }

    /** The body of the readiness effect before the poller starts. */
    method BeginPolling()
      modifies this
      ensures state == old(state).(isCheckingModel := true, isLoading := true)
    {
      Dispatch(SetIsCheckingModel(true));
      SetLoading(true);
    }

    /** The poller's `onReady` callback. */
    method OnReady()
      modifies this
      ensures state == old(state).(isModelReady := true, isCheckingModel := false, isLoading := false, error := None)
    {
      Dispatch(SetIsModelReady(true));
      Dispatch(SetIsCheckingModel(false));
      SetLoading(false);
      Dispatch(SetError(None));
    }

    /** The poller's `onError` callback. */
    method OnError()
      modifies this
      ensures state == old(state).(isModelReady := false, error := Some(NotReadyError), isCheckingModel := true, isLoading := true)
    {
      Dispatch(SetIsModelReady(false));
      Dispatch(SetError(Some(NotReadyError)));
      Dispatch(SetIsCheckingModel(true));
      SetLoading(true);
    }

    /** The poller's `onChecking` callback. */
    method OnChecking()
      modifies this
      ensures state == old(state).(isCheckingModel := true, isLoading := true)
    {
      Dispatch(SetIsCheckingModel(true));
      SetLoading(true);
    }

    /** The dispatches of an accepted send before the reply arrives. */
    method BeginSend(input: string, files: seq<UploadedFile>)
      modifies this
      ensures state == old(state).(error := None, input := "", uploadedFiles := [], isLoading := true,
                                   messages := old(state).messages + [Message(User, input, Some(FileRefs(files))),
                                                                      Message(Model, "", None)])
    {
      Dispatch(SetError(None));
      Dispatch(AddMessage(Message(User, input, Some(FileRefs(files)))));
      Dispatch(SetInput(""));
      Dispatch(SetUploadedFiles([]));
      Dispatch(AddMessage(Message(Model, "", None)));
      SetLoading(true);
    }

    /** The token callback applied to each token in turn: it accumulates the
        reply and writes it into the trailing, still empty, model message. */
    method ReceiveTokens(tokens: seq<string>)
      requires |state.messages| > 0
      requires state.messages[|state.messages| - 1].role == Model
      requires state.messages[|state.messages| - 1].content == ""
      modifies this
      ensures var n := |old(state).messages|;
        state == old(state).(messages := old(state).messages[..n - 1]
                                         + [old(state).messages[n - 1].(content := Concat(tokens))])
    {
      ghost var n := |state.messages|;
      ghost var prefix := state.messages[..n - 1];
      ghost var placeholder := state.messages[n - 1];
      ghost var started := state;
      var modelReply := "";
      var i := 0;
      assert state.messages == prefix + [placeholder];
      while i < |tokens|
        invariant 0 <= i <= |tokens|
        invariant modelReply == Concat(tokens[..i])
        invariant state == started.(messages := prefix + [placeholder.(content := modelReply)])
      {
        ghost var before := modelReply;
        modelReply := modelReply + tokens[i];
        assert tokens[..i + 1][..i] == tokens[..i];
        RewriteTrailing(started, prefix, placeholder, before, modelReply);
        Dispatch(UpdateLastModelMessage(modelReply));
        i := i + 1;
      }
      assert tokens[..i] == tokens;
    }

    /** The callback `simulateModelReply` calls: the reply goes into the
        trailing model message and loading ends. */
    method SimulatedCallback(reply: string)
      requires |state.messages| > 0 && state.messages[|state.messages| - 1].role == Model
      modifies this
      ensures var n := |old(state).messages|;
        state == old(state).(isLoading := false,
                             messages := old(state).messages[..n - 1]
                                         + [old(state).messages[n - 1].(content := reply)])
    {
      ghost var n := |state.messages|;
      ghost var prefix := state.messages[..n - 1];
      assert state.messages == prefix + [state.messages[n - 1]];
      UpdateTrailingModelMessage(state, prefix, state.messages[n - 1], reply);
      Dispatch(UpdateLastModelMessage(reply));
      SetLoading(false);
    }

    /** The `try`/`catch`/`finally` of a streamed send: the tokens go into
        the trailing, still empty, model message; a rejection appends an
        error message; loading ends either way. */
    method StreamReply(stream: StreamOutcome)
      requires |state.messages| > 0
      requires state.messages[|state.messages| - 1].role == Model
      requires state.messages[|state.messages| - 1].content == ""
      modifies this
      ensures var n := |old(state).messages|;
        state == old(state).(isLoading := false,
                             messages := old(state).messages[..n - 1]
                                         + [old(state).messages[n - 1].(content := Concat(stream.tokens))]
                                         + (if stream.failure.Some?
                                            then [Message(Model, ErrorText(stream.failure.value), None)] else []))
    {
      ReceiveTokens(stream.tokens);
      if stream.failure.Some? {
        Dispatch(AddMessage(Message(Model, ErrorText(stream.failure.value), None)));
      }
      SetLoading(false);
    }

    /** `sendMessage`, run by a handler created when the state was `snapshot`.
        `simulatedReply` is what the debug-mode simulation delivers; `stream`
        is what the token stream delivers. */
    method SendMessage(snapshot: State, simulatedReply: string, stream: StreamOutcome) returns (request: Option<Request>)
      modifies this
      ensures !SendAllowed(snapshot) ==> request == None && state == old(state)
      ensures SendAllowed(snapshot) ==>
        var sent := Message(User, snapshot.input, Some(FileRefs(snapshot.uploadedFiles)));
        var reply := if snapshot.debugMode then simulatedReply else Concat(stream.tokens);
        var failed := if !snapshot.debugMode && stream.failure.Some?
                      then [Message(Model, ErrorText(stream.failure.value), None)] else [];
        && request == Some(if snapshot.debugMode then SimulatedRequest(snapshot.input)
                           else StreamRequest(snapshot.input, snapshot.uploadedFiles))
        && state == old(state).(error := None, input := "", uploadedFiles := [], isLoading := false,
                                messages := old(state).messages + [sent, Message(Model, reply, None)] + failed)
    {
      if !SendAllowed(snapshot) {
        return None;
      }
      var filesToSend := snapshot.uploadedFiles;
      var sent := Message(User, snapshot.input, Some(FileRefs(filesToSend)));
      BeginSend(snapshot.input, filesToSend);
      ghost var msgs := old(state).messages + [sent];
      assert state.messages[..|state.messages| - 1] == msgs;
      if snapshot.debugMode {
        request := Some(SimulatedRequest(snapshot.input));
        SimulatedCallback(simulatedReply);
        assert state.messages == msgs + [Message(Model, simulatedReply, None)];
        return;
      }
      request := Some(StreamRequest(snapshot.input, filesToSend));
      StreamReply(stream);
      assert state.messages[..|msgs| + 1] == msgs + [Message(Model, Concat(stream.tokens), None)];
    }

    /** `handleNewChat`; `created` says whether `createNewChat` succeeded. */
    method HandleNewChat(created: bool)
      modifies this
      ensures state == old(state).(isCreatingChat := false, isLoading := false,
                                   error := if created then None else Some(NewChatError),
                                   messages := if created then [] else old(state).messages)
    {
      Dispatch(SetIsCreatingChat(true));
      SetLoading(true);
      Dispatch(SetError(None));
      if created {
        Dispatch(SetMessages([]));
      } else {
        Dispatch(SetError(Some(NewChatError)));
      }
      Dispatch(SetIsCreatingChat(false));
      SetLoading(false);
    }

    method HandleDragOver()
      modifies this
      ensures state == old(state).(isDragActive := true)
    {
      Dispatch(SetIsDragActive(true));
    }

    method HandleDragLeave()
      modifies this
      ensures state == old(state).(isDragActive := false)
    {
      Dispatch(SetIsDragActive(false));
    }

    /** `handleDrop`, run by a handler created when the state was `snapshot`;
        `read` is what `readTextFiles` resolved to, or its rejection. */
    method HandleDrop(snapshot: State, read: Result<seq<UploadedFile>, string>)
      modifies this
      ensures state == old(state).(isDragActive := false, isReadingFiles := false, isLoading := false,
                                   uploadedFiles := if read.Success? then snapshot.uploadedFiles + read.value
                                                    else old(state).uploadedFiles,
                                   error := if read.Success? then old(state).error else Some(ReadFilesError))
    {
      Dispatch(SetIsDragActive(false));
      Dispatch(SetIsReadingFiles(true));
      SetLoading(true);
      match read {
        case Success(results) =>
          Dispatch(SetUploadedFiles(snapshot.uploadedFiles + results));
        case Failure(_) =>
          Dispatch(SetError(Some(ReadFilesError)));
      }
      Dispatch(SetIsReadingFiles(false));
      SetLoading(false);
    }

    /** A file pill's remove button, rendered from `snapshot`. */
    method RemoveUploadedFile(snapshot: State, idx: int)
      modifies this
      ensures state == old(state).(uploadedFiles := RemoveAt(snapshot.uploadedFiles, idx))
    {
      Dispatch(SetUploadedFiles(RemoveAt(snapshot.uploadedFiles, idx)));
    }

    /** The prompt text area's change handler. */
    method ChangeInput(text: string)
      modifies this
      ensures state == old(state).(input := text)
    {
      Dispatch(SetInput(text));
    }

    /** The debug-mode checkbox, rendered from `snapshot`. */
    method ToggleDebugMode(snapshot: State)
      modifies this
      ensures state == old(state).(debugMode := !snapshot.debugMode)
    {
      Dispatch(SetDebugMode(!snapshot.debugMode));
    }
  }
}
