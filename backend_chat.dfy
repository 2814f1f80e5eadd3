/** The back end's streaming chat generator, in its two copies: one keeps the
    conversation in the shared application state
    (backend/routers/model/chat_utils.py), the other in a module-level variable
    of the endpoint (backend/endpoints/chat.py). */
module BackendChat {

  import opened Wrappers
  import opened Strings
  import PyText
  import opened DeltaStream

  const NotLoadedMessage: string := "[Model not loaded or template not set]"

  /** One conversation entry; an assistant placeholder has no content yet. */
  datatype ConvMessage = ConvMessage(role: string, content: Option<string>)

  /** What the conversation-template lookup returns for the loaded model: its
      two role names and the messages it starts with. */
  datatype Template = Template(userRole: string, assistantRole: string, initial: seq<ConvMessage>)

  /** A conversation: role names plus the growing list of messages. */
  class Conversation {
    const userRole: string
    const assistantRole: string
    var messages: seq<ConvMessage>

    constructor (t: Template)
      ensures userRole == t.userRole && assistantRole == t.assistantRole
      ensures messages == t.initial
    {
      userRole, assistantRole := t.userRole, t.assistantRole;
      messages := t.initial;
    }

    /** `append_message(role, content)`. */
    method AppendMessage(role: string, content: Option<string>)
      modifies this
      ensures messages == old(messages) + [ConvMessage(role, content)]
    {
      messages := messages + [ConvMessage(role, content)];
    }

    /** `update_last_message(content)`: sets the content of the last message. */
    method UpdateLastMessage(content: string)
      requires messages != []
      modifies this
      ensures |messages| == |old(messages)|
      ensures messages[..|messages| - 1] == old(messages)[..|messages| - 1]
      ensures messages[|messages| - 1] == old(messages)[|messages| - 1].(content := Some(content))
    {
      messages := messages[..|messages| - 1] + [messages[|messages| - 1].(content := Some(content))];
    }
  }

  /** The shared application state: whether a model and a tokenizer are
      loaded, and the conversation kept between requests. */
  class AppState {
    var modelLoaded: bool
    var tokenizerLoaded: bool
    var conversation: Conversation?

    constructor ()
      ensures !modelLoaded && !tokenizerLoaded && conversation == null
    {
      modelLoaded, tokenizerLoaded, conversation := false, false, null;
    }
  }

  function ErrorItem(e: string): string
  {
    "[Error: " + e + "]"
  }

  /** What one request emitted and how it leaves a conversation that held
      `before`: the user message and an empty assistant placeholder are added;
      a generation that completes fills the placeholder with its stripped final
      text, one that fails emitted an error item and leaves the placeholder empty. */
  predicate Exchanged(before: seq<ConvMessage>, after: seq<ConvMessage>, userRole: string,
                      assistantRole: string, message: string, gen: Generation, emitted: seq<string>)
  {
    match gen.error
    case None =>
      && emitted == Deltas(gen.texts)
      && after == before + [ConvMessage(userRole, Some(message)),
                            ConvMessage(assistantRole, Some(PyText.Strip(LastText(gen.texts))))]
    case Some(e) =>
      && emitted == Deltas(gen.texts) + [ErrorItem(e)]
      && after == before + [ConvMessage(userRole, Some(message)), ConvMessage(assistantRole, None)]
  }

  /** The body both copies share once a model is loaded and a conversation
      exists: append, build the prompt, stream the deltas, record the reply.
      `promptFrom` is the message list the prompt is built from. */
  method Converse(conv: Conversation, message: string, gen: Generation)
    returns (emitted: seq<string>, promptFrom: seq<ConvMessage>)
    modifies conv
    ensures promptFrom == old(conv.messages) + [ConvMessage(conv.userRole, Some(message)),
                                                ConvMessage(conv.assistantRole, None)]
    ensures Exchanged(old(conv.messages), conv.messages, conv.userRole, conv.assistantRole,
                      message, gen, emitted)
  {
    conv.AppendMessage(conv.userRole, Some(message));
    conv.AppendMessage(conv.assistantRole, None);
    promptFrom := conv.messages;
    var lastText;
    emitted, lastText := StreamDeltas(gen.texts);
    match gen.error {
      case None =>
        conv.UpdateLastMessage(PyText.Strip(lastText));
      case Some(e) =>
        emitted := emitted + [ErrorItem(e)];
    }
  }

  /** `chat_stream` of backend/routers/model/chat_utils.py: the conversation
      lives in the shared state and is created from `template` on first use. */
  method ChatStream(state: AppState, message: string, template: Template, gen: Generation)
    returns (emitted: seq<string>)
    modifies state, state.conversation
    ensures !old(state.modelLoaded && state.tokenizerLoaded) ==>
      && emitted == [NotLoadedMessage]
      && state.conversation == old(state.conversation)
      && (state.conversation != null ==> state.conversation.messages == old(state.conversation.messages))
    ensures old(state.modelLoaded && state.tokenizerLoaded) ==>
      && state.conversation != null
      && (old(state.conversation) != null ==> state.conversation == old(state.conversation))
      && (old(state.conversation) == null ==>
            && fresh(state.conversation)
            && state.conversation.userRole == template.userRole
            && state.conversation.assistantRole == template.assistantRole)
      && Exchanged(if old(state.conversation) == null then template.initial
                   else old(state.conversation.messages),
                   state.conversation.messages, state.conversation.userRole,
                   state.conversation.assistantRole, message, gen, emitted)
    ensures state.modelLoaded == old(state.modelLoaded)
    ensures state.tokenizerLoaded == old(state.tokenizerLoaded)
  {
    if !state.modelLoaded || !state.tokenizerLoaded {
      return [NotLoadedMessage];
    }
    if state.conversation == null {
      state.conversation := new Conversation(template);
    }
    var conv := state.conversation;
    var promptFrom;
    emitted, promptFrom := Converse(conv, message, gen);
  }

  /** backend/endpoints/chat.py: the same generator with the conversation held
      by the endpoint module rather than the shared state. */
  class ChatEndpoint {
    var conversation: Conversation?

    constructor ()
      ensures conversation == null
    {
      conversation := null;
    }

    method ChatStream(state: AppState, message: string, template: Template, gen: Generation)
      returns (emitted: seq<string>)
      modifies this, conversation
      ensures !(state.modelLoaded && state.tokenizerLoaded) ==>
        && emitted == [NotLoadedMessage]
        && conversation == old(conversation)
        && (conversation != null ==> conversation.messages == old(conversation.messages))
      ensures state.modelLoaded && state.tokenizerLoaded ==>
        && conversation != null
        && (old(conversation) != null ==> conversation == old(conversation))
        && (old(conversation) == null ==>
              && fresh(conversation)
              && conversation.userRole == template.userRole
              && conversation.assistantRole == template.assistantRole)
        && Exchanged(if old(conversation) == null then template.initial
                     else old(conversation.messages),
                     conversation.messages, conversation.userRole,
                     conversation.assistantRole, message, gen, emitted)
    {
      if !state.modelLoaded || !state.tokenizerLoaded {
        return [NotLoadedMessage];
      }
      if conversation == null {
        conversation := new Conversation(template);
      }
      var conv := conversation;
      var promptFrom;
      emitted, promptFrom := Converse(conv, message, gen);
    }
  }

  /** A completed request whose generator only extended its text emitted
      pieces that add up to the reply, and stores that reply stripped. */
  lemma CompletedExchange(before: seq<ConvMessage>, after: seq<ConvMessage>, userRole: string,
                          assistantRole: string, message: string, gen: Generation, emitted: seq<string>)
    requires Exchanged(before, after, userRole, assistantRole, message, gen, emitted)
    requires gen.error == None && PrefixExtending(gen.texts)
    ensures Concat(emitted) == LastText(gen.texts)
    ensures forall k :: 0 <= k < |emitted| ==> emitted[k] != []
    ensures |after| == |before| + 2 && after[..|before|] == before
    ensures after[|after| - 1].content == Some(PyText.Strip(Concat(emitted)))
  {
    DeltasConcat(gen.texts);
    assert (before + [after[|before|], after[|before| + 1]])[..|before|] == before;
  }

  /** A failed request emitted the pieces produced so far and then exactly one
      error item, and leaves the assistant placeholder empty. */
  lemma FailedExchange(before: seq<ConvMessage>, after: seq<ConvMessage>, userRole: string,
                       assistantRole: string, message: string, gen: Generation, emitted: seq<string>)
    requires Exchanged(before, after, userRole, assistantRole, message, gen, emitted)
    requires gen.error.Some?
    ensures emitted[|emitted| - 1] == ErrorItem(gen.error.value)
    ensures Concat(emitted[..|emitted| - 1]) == Concat(Deltas(gen.texts))
    ensures after[|after| - 1] == ConvMessage(assistantRole, None)
  {
    assert emitted[..|emitted| - 1] == Deltas(gen.texts);
  }
}
