/**
 * The chat transcript controller: the message list, the input box and the
 * loading flag, and the handlers that send a message, pick a topic and react
 * to the Enter key.
 *
 * The chat service is foreign code; what it does with one request is the
 * ReplyOutcome the caller passes in. A send is split at its one `await`:
 * BeginSend is the synchronous part, FinishSend the continuation.
 */
module App {
  import opened Wrappers
  import opened Text
  import opened Types

  /** The model message shown when the service call fails. */
  const ERROR_TEXT: string :=
    "I encountered an error connecting to the neural core. Please check your API key or network connection."

  /** What the chat service does with one request. */
  datatype ReplyOutcome = Replied(text: string) | ServiceFailed

  datatype ChatState = ChatState(
    messages: seq<Message>,
    input: string,
    loading: LoadingState,
    selectedTopic: Option<string>)

  /** The guard at the head of the send handler: the content must not trim to
      the empty string and no send may be in flight. */
  predicate Accepts(content: string, loading: LoadingState)
    ensures Accepts(content, loading) <==> !IsBlank(content) && loading == Idle
  {
    !(Trim(content) == "" || loading == Loading)
  }

  function UserMessage(content: string): Message
  {
    Message(User, content, false)
  }

  /** The one model message a finished send appends. */
  function Reply(outcome: ReplyOutcome): (m: Message)
    ensures m.role == Model
    ensures m.isError <==> outcome.ServiceFailed?
    ensures m.content == if outcome.Replied? then outcome.text else ERROR_TEXT
  {
    match outcome
    case Replied(text) => Message(Model, text, false)
    case ServiceFailed => Message(Model, ERROR_TEXT, true)
  }

  /** The synchronous part of an accepted send. */
  function Begin(s: ChatState, content: string): ChatState
  {
    s.(messages := s.messages + [UserMessage(content)], input := "", loading := Loading)
  }

  /** The continuation after the service call, including the `finally`. */
  function Finish(s: ChatState, outcome: ReplyOutcome): ChatState
  {
    s.(messages := s.messages + [Reply(outcome)], loading := Idle)
  }

  /** A whole send: rejected without any change, or one user message and one
      model message appended, the input cleared and the flag back to idle. */
  function AfterSend(s: ChatState, content: string, outcome: ReplyOutcome): (r: ChatState)
    ensures r.selectedTopic == s.selectedTopic
    ensures !Accepts(content, s.loading) ==> r == s
    ensures Accepts(content, s.loading) ==>
      && r.messages == s.messages + [UserMessage(content), Reply(outcome)]
      && r.input == ""
      && r.loading == Idle
  {
    if Accepts(content, s.loading) then Finish(Begin(s, content), outcome) else s
  }

  /** A series of sends, each completing before the next starts. */
  function Replay(s: ChatState, sends: seq<(string, ReplyOutcome)>): ChatState
    decreases |sends|
  {
    if sends == [] then s else Replay(AfterSend(s, sends[0].0, sends[0].1), sends[1..])
  }

  /** How many of the sends carry non-blank content. */
  function NonBlankCount(sends: seq<(string, ReplyOutcome)>): nat
  {
    if sends == [] then 0
    else (if IsBlank(sends[0].0) then 0 else 1) + NonBlankCount(sends[1..])
  }

  /** Starting idle, the transcript is only ever extended: every non-blank send
      adds exactly two messages, nothing is removed or reordered, and the flag
      ends idle. */
  lemma {:induction false} TranscriptGrowsByTwo(s: ChatState, sends: seq<(string, ReplyOutcome)>)
    requires s.loading == Idle
    ensures Replay(s, sends).loading == Idle
    ensures |Replay(s, sends).messages| == |s.messages| + 2 * NonBlankCount(sends)
    ensures Replay(s, sends).messages[..|s.messages|] == s.messages
    decreases |sends|
  {
    if sends != [] {
      var next := AfterSend(s, sends[0].0, sends[0].1);
      TranscriptGrowsByTwo(next, sends[1..]);
      assert next.messages[..|s.messages|] == s.messages;
      assert Replay(s, sends).messages[..|next.messages|] == next.messages;
    }
  }

  /** While a send is in flight every further send is refused. */
  lemma {:induction false} RefusedWhileLoading(s: ChatState, sends: seq<(string, ReplyOutcome)>)
    requires s.loading == Loading
    ensures Replay(s, sends) == s
    decreases |sends|
  {
    if sends != [] {
      RefusedWhileLoading(s, sends[1..]);
    }
  }

  class ChatController {
    var messages: seq<Message>
    var input: string
    var loading: LoadingState
    var selectedTopic: Option<string>

    function State(): ChatState
      reads this
    {
      ChatState(messages, input, loading, selectedTopic)
    }

    /** The send button's enable condition. */
    predicate SendEnabled()
      reads this
      ensures SendEnabled() <==> Accepts(input, loading)
    {
      !(loading == Loading || Trim(input) == "")
    }

    constructor ()
      ensures State() == ChatState([], "", Idle, None)
    {
      messages := [];
      input := "";
      loading := Idle;
      selectedTopic := None;
    }

    /** The input box's change handler; the box is disabled while loading. */
    method Type(value: string)
      modifies this`input
      ensures input == if old(loading) == Loading then old(input) else value
    {
      if loading != Loading {
        input := value;
      }
    }

    /** The part of the send handler before the service call. */
    method BeginSend(content: string) returns (accepted: bool)
      modifies this
      ensures accepted == Accepts(content, old(loading))
      ensures State() == if accepted then Begin(old(State()), content) else old(State())
    {
      if Trim(content) == "" || loading == Loading {
        return false;
      }
      messages := messages + [UserMessage(content)];
      input := "";
      loading := Loading;
      accepted := true;
    }

    /** The part of the send handler after the service call: the reply or the
        error message, then back to idle. */
    method FinishSend(outcome: ReplyOutcome)
      modifies this
      ensures State() == Finish(old(State()), outcome)
    {
      match outcome {
        case Replied(text) =>
          messages := messages + [Message(Model, text, false)];
        case ServiceFailed =>
          messages := messages + [Message(Model, ERROR_TEXT, true)];
      }
      loading := Idle;
    }

    /** The send handler, start to finish. */
    method Send(content: string, outcome: ReplyOutcome) returns (accepted: bool)
      modifies this
      ensures accepted == Accepts(content, old(loading))
      ensures State() == AfterSend(old(State()), content, outcome)
    {
      accepted := BeginSend(content);
      if accepted {
        FinishSend(outcome);
      }
    }

    /** The topic handler: record the topic, then send its prompt. The topic is
        recorded even when the send is refused. */
    method SelectTopic(topic: Topic, outcome: ReplyOutcome)
      modifies this
      ensures selectedTopic == Some(topic.id)
      ensures State() == AfterSend(old(State()).(selectedTopic := Some(topic.id)), topic.prompt, outcome)
    {
      selectedTopic := Some(topic.id);
      var _ := Send(topic.prompt, outcome);
    }

    /** The key handler: Enter without Shift sends the input box's content;
        every other key is left to the text box. */
    method KeyDown(key: string, shift: bool, outcome: ReplyOutcome) returns (handled: bool)
      modifies this
      ensures handled <==> key == "Enter" && !shift
      ensures State() == if handled then AfterSend(old(State()), old(input), outcome) else old(State())
    {
      handled := key == "Enter" && !shift;
      if handled {
        var _ := Send(input, outcome);
      }
    }

    /** The send button: a disabled button fires nothing, and when enabled the
        guard passes, so a click is a send of the input either way. */
    method ClickSend(outcome: ReplyOutcome)
      modifies this
      ensures State() == AfterSend(old(State()), old(input), outcome)
      ensures old(SendEnabled()) <==> |messages| == |old(messages)| + 2
    {
      if SendEnabled() {
        var _ := Send(input, outcome);
      }
    }
  }
}
