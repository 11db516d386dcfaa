/**
 * The chat state holder (AssistantViewModel.kt): an ordered list of chat
 * messages, a loading flag and an optional error string. A prompt is
 * appended as a user message, then a streamed reply from the inference
 * collaborator is folded, token by token, into a trailing assistant message.
 *
 * The collaborator's stream for a prompt is an input: the tokens it delivers
 * in arrival order and how it ends (completed, or failed with a message after
 * the last delivered token). The launched coroutine is one atomic step.
 */
module Assistant {

  import opened Optional
  import opened Blank

  /** One chat entry. `timestamp` stands for the wall-clock reading taken
      when the entry is built; the model treats it as an opaque number. */
  datatype ChatMessage = ChatMessage(text: string, isUser: bool, timestamp: nat)

  /** How a token stream ends. `message` is the exception's message. */
  datatype StreamEnd = Completed | Failed(message: string)

  /** What the collaborator delivers for one prompt. A stream that fails
      after k tokens has k elements in `tokens`. */
  datatype TokenStream = TokenStream(tokens: seq<string>, end: StreamEnd)

  /** The three observable values of the holder. */
  datatype ChatState = ChatState(messages: seq<ChatMessage>, isLoading: bool, error: Option<string>)

  const GenerateErrorPrefix: string := "Failed to generate response: "

  /** The state of a freshly created holder. */
  function Initial(): ChatState {
    ChatState([], false, None)
  }

  /** The empty assistant message appended when generation starts. */
  function Placeholder(replyTime: nat): ChatMessage {
    ChatMessage("", false, replyTime)
  }

  /** t1 + t2 + ... + tk: the running buffer after the tokens `ts`. */
  function Concat(ts: seq<string>): string {
    if ts == [] then "" else ts[0] + Concat(ts[1..])
  }

  lemma {:induction false} ConcatSnoc(ts: seq<string>, t: string)
    ensures Concat(ts + [t]) == Concat(ts) + t
  {
    if ts == [] {
      assert [t][1..] == [];
    } else {
      assert (ts + [t])[1..] == ts[1..] + [t];
      ConcatSnoc(ts[1..], t);
    }
  }

  /** The buffer is empty exactly when every delivered token is empty. */
  lemma {:induction false} ConcatEmptyIff(ts: seq<string>)
    ensures Concat(ts) == "" <==> forall i | 0 <= i < |ts| :: ts[i] == ""
  {
    if ts != [] {
      ConcatEmptyIff(ts[1..]);
      assert forall i | 1 <= i < |ts| :: ts[i] == ts[1..][i - 1];
    }
  }

  /** The buffer only grows: after more tokens, the earlier buffer is a prefix. */
  lemma {:induction false} StreamedTextGrows(ts: seq<string>, j: nat, k: nat)
    requires j <= k <= |ts|
    ensures Concat(ts[..j]) <= Concat(ts[..k])
  {
    if j < k {
      StreamedTextGrows(ts, j, k - 1);
      assert ts[..k] == ts[..k - 1] + [ts[k - 1]];
      ConcatSnoc(ts[..k - 1], ts[k - 1]);
    }
  }

  /** The update made for one token, given the running buffer: when the last
      message is an assistant message it is replaced by a copy carrying the
      buffer as its text; otherwise the list is left as it is. */
  function StreamStep(msgs: seq<ChatMessage>, buffer: string): (r: seq<ChatMessage>)
    ensures |r| == |msgs|
    ensures forall j | 0 <= j < |msgs| - 1 :: r[j] == msgs[j]
    ensures |msgs| > 0 && !msgs[|msgs| - 1].isUser ==>
              r[|r| - 1] == ChatMessage(buffer, false, msgs[|msgs| - 1].timestamp)
    ensures |msgs| == 0 || msgs[|msgs| - 1].isUser ==> r == msgs
  {
    var last := |msgs| - 1;
    if last >= 0 && !msgs[last].isUser then msgs[last := msgs[last].(text := buffer)] else msgs
  }

  /** The list after the stream has delivered the tokens `ts`: one StreamStep
      per token, the k-th with the buffer Concat(ts[..k]). */
  function AfterTokens(msgs: seq<ChatMessage>, ts: seq<string>): (r: seq<ChatMessage>)
    ensures |r| == |msgs|
    ensures forall j | 0 <= j < |msgs| - 1 :: r[j] == msgs[j]
    decreases |ts|
  {
    if ts == [] then msgs else StreamStep(AfterTokens(msgs, ts[..|ts| - 1]), Concat(ts))
  }

  /** Streaming onto a trailing assistant message leaves every earlier
      message alone and gives the trailing one the concatenated tokens. */
  lemma {:induction false} AfterTokensOnReply(prefix: seq<ChatMessage>, reply: ChatMessage, ts: seq<string>)
    requires !reply.isUser
    ensures AfterTokens(prefix + [reply], ts)
            == prefix + [if ts == [] then reply else reply.(text := Concat(ts))]
  {
    if ts != [] {
      var init := ts[..|ts| - 1];
      AfterTokensOnReply(prefix, reply, init);
      var before := prefix + [if init == [] then reply else reply.(text := Concat(init))];
      assert before[|before| - 1 := before[|before| - 1].(text := Concat(ts))]
             == prefix + [reply.(text := Concat(ts))];
    }
  }

  /** After the first k tokens of a stream started on a placeholder, the list
      holds the earlier messages and then an assistant message whose text is
      the first k tokens concatenated; the next token only extends that text. */
  lemma StreamingPrefix(prefix: seq<ChatMessage>, replyTime: nat, ts: seq<string>, k: nat)
    requires k < |ts|
    ensures AfterTokens(prefix + [Placeholder(replyTime)], ts[..k])
            == prefix + [ChatMessage(Concat(ts[..k]), false, replyTime)]
    ensures AfterTokens(prefix + [Placeholder(replyTime)], ts[..k + 1])
            == prefix + [ChatMessage(Concat(ts[..k]) + ts[k], false, replyTime)]
  {
    AfterTokensOnReply(prefix, Placeholder(replyTime), ts[..k]);
    AfterTokensOnReply(prefix, Placeholder(replyTime), ts[..k + 1]);
    assert ts[..k + 1] == ts[..k] + [ts[k]];
    ConcatSnoc(ts[..k], ts[k]);
  }

  /** The failure cleanup: drop the last message when it is an assistant
      message with empty text; otherwise keep the list. */
  function DiscardEmptyReply(msgs: seq<ChatMessage>): (r: seq<ChatMessage>)
    ensures r <= msgs && |msgs| - 1 <= |r|
    ensures |r| < |msgs| <==>
              |msgs| > 0 && !msgs[|msgs| - 1].isUser && msgs[|msgs| - 1].text == ""
  {
    if |msgs| > 0 && !msgs[|msgs| - 1].isUser && msgs[|msgs| - 1].text == "" then
      msgs[..|msgs| - 1]
    else
      msgs
  }

  /** The whole launched generation: clear the error, append a placeholder,
      fold the tokens in, and on failure record the error and drop the
      placeholder if it is still empty; loading ends in every case. */
  function Generate(s: ChatState, replyTime: nat, stream: TokenStream): ChatState {
    var streamed := AfterTokens(s.messages + [Placeholder(replyTime)], stream.tokens);
    match stream.end
    case Completed => ChatState(streamed, false, None)
    case Failed(m) => ChatState(DiscardEmptyReply(streamed), false, Some(GenerateErrorPrefix + m))
  }

  /** What a generation leaves behind, stated without the token-by-token
      fold: a completed stream adds one assistant message holding all tokens
      in arrival order; a failed one records the error and keeps that message
      only when its text is non-empty. */
  lemma GenerateOutcome(s: ChatState, replyTime: nat, stream: TokenStream)
    ensures var r := Generate(s, replyTime, stream);
            var reply := ChatMessage(Concat(stream.tokens), false, replyTime);
            && !r.isLoading
            && (stream.end.Completed? ==> r.messages == s.messages + [reply] && r.error == None)
            && (stream.end.Failed? ==>
                  && r.error == Some(GenerateErrorPrefix + stream.end.message)
                  && r.messages == if reply.text == "" then s.messages else s.messages + [reply])
  {
    AfterTokensOnReply(s.messages, Placeholder(replyTime), stream.tokens);
    var streamed := s.messages + [ChatMessage(Concat(stream.tokens), false, replyTime)];
    assert streamed[..|streamed| - 1] == s.messages;
  }

  /** On failure the assistant message disappears exactly when every token
      that arrived was empty (in particular when none arrived). */
  lemma GenerateFailureDropsReplyIff(s: ChatState, replyTime: nat, stream: TokenStream)
    requires stream.end.Failed?
    ensures var r := Generate(s, replyTime, stream);
            && r.error.Some?
            && (r.messages == s.messages <==> forall i | 0 <= i < |stream.tokens| :: stream.tokens[i] == "")
            && (stream.tokens == [] ==> r.messages == s.messages)
  {
    GenerateOutcome(s, replyTime, stream);
    ConcatEmptyIff(stream.tokens);
    var r := Generate(s, replyTime, stream);
    if Concat(stream.tokens) != "" {
      assert |r.messages| == |s.messages| + 1;
    }
  }

  /** sendMessage: a blank prompt changes nothing; otherwise the prompt is
      appended as a user message and a generation runs. */
  function Send(s: ChatState, prompt: string, userTime: nat, replyTime: nat, stream: TokenStream): ChatState {
    if IsBlank(prompt) then s
    else Generate(s.(messages := s.messages + [ChatMessage(prompt, true, userTime)]), replyTime, stream)
  }

  /** The effect of one send on every observable value. */
  lemma SendOutcome(s: ChatState, prompt: string, userTime: nat, replyTime: nat, stream: TokenStream)
    ensures IsBlank(prompt) ==> Send(s, prompt, userTime, replyTime, stream) == s
    ensures !IsBlank(prompt) ==>
              var r := Send(s, prompt, userTime, replyTime, stream);
              var user := ChatMessage(prompt, true, userTime);
              var reply := ChatMessage(Concat(stream.tokens), false, replyTime);
              && !r.isLoading
              && (stream.end.Completed? ==> r.messages == s.messages + [user, reply] && r.error == None)
              && (stream.end.Failed? ==> r.error == Some(GenerateErrorPrefix + stream.end.message))
              && (stream.end.Failed? && reply.text == "" ==> r.messages == s.messages + [user])
              && (stream.end.Failed? && reply.text != "" ==> r.messages == s.messages + [user, reply])
  {
    if !IsBlank(prompt) {
      var user := ChatMessage(prompt, true, userTime);
      GenerateOutcome(s.(messages := s.messages + [user]), replyTime, stream);
      assert s.messages + [user] + [ChatMessage(Concat(stream.tokens), false, replyTime)]
             == s.messages + [user, ChatMessage(Concat(stream.tokens), false, replyTime)];
    }
  }

  /** The example of a reply streamed as "Hel" then "lo". */
  lemma SendHelloExample()
    ensures Send(Initial(), "Hi", 1, 2, TokenStream(["Hel", "lo"], Completed)).messages
            == [ChatMessage("Hi", true, 1), ChatMessage("Hello", false, 2)]
  {
    assert !IsWhitespace("Hi"[0]);
    SendOutcome(Initial(), "Hi", 1, 2, TokenStream(["Hel", "lo"], Completed));
    assert ["Hel", "lo"][1..] == ["lo"] && ["lo"][1..] == [];
    assert Concat(["Hel", "lo"]) == "Hello";
  }

  /** Every assistant message directly follows a user message. */
  predicate RepliesFollowPrompts(msgs: seq<ChatMessage>) {
    forall j | 0 <= j < |msgs| :: !msgs[j].isUser ==> 0 < j && msgs[j - 1].isUser
  }

  /** The holder between operations: not loading, and replies follow prompts. */
  predicate Settled(s: ChatState) {
    !s.isLoading && RepliesFollowPrompts(s.messages)
  }

  lemma SendKeepsSettled(s: ChatState, prompt: string, userTime: nat, replyTime: nat, stream: TokenStream)
    requires Settled(s)
    ensures Settled(Send(s, prompt, userTime, replyTime, stream))
  {
    SendOutcome(s, prompt, userTime, replyTime, stream);
  }

  /** The public operations of the holder, as events. */
  datatype ChatEvent =
    | PromptSubmitted(prompt: string, userTime: nat, replyTime: nat, stream: TokenStream)
    | MessagesCleared
    | ErrorCleared

  function Apply(s: ChatState, e: ChatEvent): ChatState {
    match e
    case PromptSubmitted(prompt, userTime, replyTime, stream) => Send(s, prompt, userTime, replyTime, stream)
    case MessagesCleared => s.(messages := [], error := None)
    case ErrorCleared => s.(error := None)
  }

  function Run(s: ChatState, es: seq<ChatEvent>): ChatState
    decreases |es|
  {
    if es == [] then s else Run(Apply(s, es[0]), es[1..])
  }

  /** Every state reachable through the public operations is settled. */
  lemma {:induction false} RunKeepsSettled(s: ChatState, es: seq<ChatEvent>)
    requires Settled(s)
    ensures Settled(Run(s, es))
    decreases |es|
  {
    if es != [] {
      if es[0].PromptSubmitted? {
        SendKeepsSettled(s, es[0].prompt, es[0].userTime, es[0].replyTime, es[0].stream);
      }
      RunKeepsSettled(Apply(s, es[0]), es[1..]);
    }
  }

  lemma ReachableIsSettled(es: seq<ChatEvent>)
    ensures Settled(Run(Initial(), es))
  {
    RunKeepsSettled(Initial(), es);
  }

  /** Until the list is cleared, messages once shown are never rewritten or
      removed: the earlier list is a prefix of the later one. */
  lemma {:induction false} RunKeepsHistory(s: ChatState, es: seq<ChatEvent>)
    requires forall i | 0 <= i < |es| :: !es[i].MessagesCleared?
    ensures s.messages <= Run(s, es).messages
    decreases |es|
  {
    if es != [] {
      if es[0].PromptSubmitted? {
        SendOutcome(s, es[0].prompt, es[0].userTime, es[0].replyTime, es[0].stream);
      }
      RunKeepsHistory(Apply(s, es[0]), es[1..]);
    }
  }

  /** The holder itself, with the three values it exposes as fields. */
  class AssistantViewModel {
    var messages: seq<ChatMessage>
    var isLoading: bool
    var error: Option<string>

    function State(): ChatState
      reads this
    {
      ChatState(messages, isLoading, error)
    }

    constructor ()
      ensures State() == Initial()
    {
      messages := [];
      isLoading := false;
      error := None;
    }

    method SendMessage(prompt: string, userTime: nat, replyTime: nat, stream: TokenStream)
      modifies this
      ensures State() == Send(old(State()), prompt, userTime, replyTime, stream)
    {
      if IsBlank(prompt) {
        return;
      }
      messages := messages + [ChatMessage(prompt, true, userTime)];
      GenerateResponse(replyTime, stream);
    }

    /** The launched generation, run to its end as one step. */
    method GenerateResponse(replyTime: nat, stream: TokenStream)
      modifies this
      ensures State() == Generate(old(State()), replyTime, stream)
    {
      isLoading := true;
      error := None;
      var response := "";
      messages := messages + [Placeholder(replyTime)];
      ghost var started := messages;
      var tokens := stream.tokens;
      var i := 0;
      while i < |tokens|
        invariant 0 <= i <= |tokens|
        invariant response == Concat(tokens[..i])
        invariant messages == AfterTokens(started, tokens[..i])
        invariant isLoading && error == None
      {
        var token := tokens[i];
        ConcatSnoc(tokens[..i], token);
        assert tokens[..i + 1] == tokens[..i] + [token];
        response := response + token;
        var lastIndex := |messages| - 1;
        if lastIndex >= 0 && !messages[lastIndex].isUser {
          messages := messages[lastIndex := messages[lastIndex].(text := response)];
        }
        i := i + 1;
      }
      assert tokens[..i] == tokens;
      match stream.end {
        case Completed =>
        case Failed(m) =>
          error := Some(GenerateErrorPrefix + m);
          if |messages| > 0 && !messages[|messages| - 1].isUser && messages[|messages| - 1].text == "" {
            messages := messages[..|messages| - 1];
          }
      }
      isLoading := false;
    }

    method ClearMessages()
      modifies this
      ensures State() == old(State()).(messages := [], error := None)
    {
      messages := [];
      error := None;
    }

    method ClearError()
      modifies this
      ensures State() == old(State()).(error := None)
    {
      error := None;
    }
  }
}
