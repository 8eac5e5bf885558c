/**
 * The chat session (`ChatProvider`): the transcript of messages, the
 * conversation context, and the operations that append to the transcript —
 * the welcome message, `addMessage`, the word-by-word streaming of a reply,
 * the handling of a visitor's question, and `resetChat`.
 */
module Chat {
  import opened Wrappers
  import opened Text
  import opened Portfolio
  import opened Intents
  import opened Conversation
  import opened Composer

  datatype Role = User | Assistant

  /**
   * Message ids: the welcome message's fixed id `"welcome"`, and ids the
   * session draws for every other message (the source draws random strings;
   * here they are drawn from a counter, which makes them fresh by construction).
   */
  datatype MessageId = WelcomeId | Generated(n: nat)

  /** A transcript entry; `options` is absent while a reply is still streaming and on visitor messages. */
  datatype Message = Message(id: MessageId, role: Role, content: string, options: Option<seq<QuickReply>>)

  /** The block cursor shown at the end of a reply that is still streaming. */
  const CURSOR: char := '▋'

  /** The message the transcript opens with: the greeting, under the fixed id, with the welcome quick replies. */
  function WelcomeMessage(profile: Profile): (r: Message)
    ensures r.id == WelcomeId && r.role == Assistant && r.options == Some(WELCOME_OPTIONS)
    ensures Occurs(r.content, profile.name) && |MENU| <= |r.content| && r.content[|r.content| - |MENU|..] == MENU
  {
    Message(WelcomeId, Assistant, WelcomeText(profile), Some(WELCOME_OPTIONS))
  }

  /**
   * What the streamed message shows after step `k` of streaming `words`: the
   * words so far joined by single spaces, then the cursor, except on the last
   * step, which shows no cursor and attaches the quick replies.
   */
  function StreamFrame(id: MessageId, words: seq<string>, k: nat, options: Option<seq<QuickReply>>): (r: Message)
    requires k < |words|
    ensures r.id == id && r.role == Assistant
    ensures r.options == if k == |words| - 1 then options else None
  {
    var last := k == |words| - 1;
    Message(id, Assistant, Join(words[..k + 1], " ") + (if last then "" else [CURSOR]), if last then options else None)
  }

  /**
   * The updater `streamResponse` hands to `setMessages` at each step: when the
   * last message is the one being streamed, it shows `streamed` (with the
   * cursor unless this is the last step) and, on the last step, the quick
   * replies; any other transcript is left as it is.
   */
  function ShowStep(prev: seq<Message>, id: MessageId, streamed: string, last: bool, options: Option<seq<QuickReply>>): (r: seq<Message>)
    ensures |r| == |prev| && (prev != [] ==> r[..|r| - 1] == prev[..|prev| - 1])
    ensures prev != [] && prev[|prev| - 1].id == id ==>
      && r[|r| - 1].id == id && r[|r| - 1].role == prev[|prev| - 1].role
      && r[|r| - 1].content == streamed + (if last then "" else [CURSOR])
      && r[|r| - 1].options == (if last then options else prev[|prev| - 1].options)
    ensures prev == [] || prev[|prev| - 1].id != id ==> r == prev
  {
    if prev != [] && prev[|prev| - 1].id == id then
      var lastMessage := prev[|prev| - 1];
      prev[..|prev| - 1] + [lastMessage.(content := streamed + (if last then "" else [CURSOR]),
                                         options := if last then options else lastMessage.options)]
    else prev
  }

  /** One streaming step turns the message shown so far into the frame of that step. */
  lemma ShowStepFrame(before: seq<Message>, shown: Message, words: seq<string>, k: nat, options: Option<seq<QuickReply>>)
    requires k < |words| && shown.role == Assistant && shown.options == None
    ensures ShowStep(before + [shown], shown.id, Join(words[..k + 1], " "), k == |words| - 1, options)
            == before + [StreamFrame(shown.id, words, k, options)]
  {
    assert (before + [shown])[..|before|] == before;
  }

  /** The last frame of streaming `content` shows exactly `content`, with the quick replies. */
  lemma LastFrame(id: MessageId, content: string, options: Option<seq<QuickReply>>)
    ensures var words := Split(content, ' ');
      StreamFrame(id, words, |words| - 1, options) == Message(id, Assistant, content, options)
  {
    var words := Split(content, ' ');
    JoinSplit(content, ' ');
    assert words[..|words|] == words;
  }

  /** The outcome of one question: the context the conversation is left with and the reply streamed back. */
  datatype Turn = Turn(context: Context, reply: Reply)

  /**
   * The answer to a visitor's input: the lower-cased input is classified, the
   * context is advanced with the intent (and replaced by the initial context
   * on a reset), and the reply is composed on the advanced context.
   */
  function Respond(profile: Profile, ctx: Context, input: string): (t: Turn)
    requires Complete(profile)
    ensures t.context == NextContext(ctx, Detect(Lower(input)).intent)
    ensures |t.reply.options| > 0
  {
    var verdict := Detect(Lower(input));
    Turn(NextContext(ctx, verdict.intent), Compose(profile, verdict.intent, verdict.subtopic, Advance(ctx, verdict.intent)))
  }

  /** No two messages share an id. */
  predicate UniqueIds(messages: seq<Message>) {
    forall i, j :: 0 <= i < j < |messages| ==> messages[i].id != messages[j].id
  }

  /** Every drawn id in the transcript is below `next`. */
  predicate IdsBelow(messages: seq<Message>, next: nat) {
    forall i :: 0 <= i < |messages| && messages[i].id.Generated? ==> messages[i].id.n < next
  }

  /** Appending a message under the next id keeps the ids unique. */
  lemma AppendFresh(messages: seq<Message>, m: Message, next: nat)
    requires UniqueIds(messages) && IdsBelow(messages, next) && m.id == Generated(next)
    ensures UniqueIds(messages + [m]) && IdsBelow(messages + [m], next + 1)
  {
    var ms := messages + [m];
    forall i, j | 0 <= i < j < |ms|
      ensures ms[i].id != ms[j].id
    {
      if j == |messages| {
        assert ms[i] == messages[i];
      }
    }
  }

  class ChatSession {
    var messages: seq<Message>
    var context: Context
    /** The next id to draw. */
    var nextId: nat
    /** The intents recognised so far, with a reset for every `resetChat`. */
    ghost var questions: seq<Intent>
    /** The portfolio record the replies quote. */
    const profile: Profile

    /** Ids are unique and below `nextId`, and the context is the replay of the questions. */
    ghost predicate Valid()
      reads this
    {
      && Complete(profile)
      && UniqueIds(messages) && IdsBelow(messages, nextId)
      && context == Replay(INITIAL_CONTEXT, questions)
    }

    constructor(profile: Profile)
      requires Complete(profile)
      ensures Valid()
      ensures messages == [] && context == INITIAL_CONTEXT && questions == [] && this.profile == profile
    {
      messages := [];
      context := INITIAL_CONTEXT;
      nextId := 0;
      questions := [];
      this.profile := profile;
    }

    /** The welcome message is installed when (and only when) the transcript is empty. */
    method InstallWelcome()
      requires Valid()
      modifies this
      ensures Valid()
      ensures messages == if old(messages) == [] then [WelcomeMessage(profile)] else old(messages)
      ensures context == old(context) && nextId == old(nextId) && questions == old(questions)
    {
      if |messages| == 0 {
        messages := [WelcomeMessage(profile)];
      }
    }

    /** `addMessage`: appends a message under a fresh id. */
    method AddMessage(role: Role, content: string, options: Option<seq<QuickReply>>)
      requires Valid()
      modifies this
      ensures Valid()
      ensures messages == old(messages) + [Message(Generated(old(nextId)), role, content, options)]
      ensures nextId == old(nextId) + 1 && context == old(context) && questions == old(questions)
    {
      var message := Message(Generated(nextId), role, content, options);
      AppendFresh(messages, message, nextId);
      nextId := nextId + 1;
      messages := messages + [message];
    }

    /**
     * `streamResponse`: appends an empty assistant message under a fresh id,
     * then streams `content` into it word by word; `frames` lists the frame of
     * each step. The finished message holds exactly `content` and the quick
     * replies.
     */
    method StreamResponse(content: string, options: Option<seq<QuickReply>>) returns (ghost frames: seq<Message>)
      requires Valid()
      modifies this
      ensures Valid()
      ensures messages == old(messages) + [Message(Generated(old(nextId)), Assistant, content, options)]
      ensures nextId == old(nextId) + 1 && context == old(context) && questions == old(questions)
      ensures |frames| == |Split(content, ' ')| && frames[|frames| - 1] == messages[|messages| - 1]
      ensures forall k :: 0 <= k < |frames| ==> frames[k] == StreamFrame(Generated(old(nextId)), Split(content, ' '), k, options)
    {
      var messageId := Generated(nextId);
      AppendFresh(messages, Message(messageId, Assistant, content, options), nextId);
      nextId := nextId + 1;
      messages := messages + [Message(messageId, Assistant, "", None)];
      frames := ShowWords(messageId, Split(content, ' '), options);
      LastFrame(messageId, content, options);
    }

    /**
     * Step `k` of the word loop of `streamResponse`: the updater is applied to
     * the transcript. When the last message is the one being streamed and has
     * no quick replies yet, it becomes the frame of step `k`.
     */
    method ShowFrame(id: MessageId, words: seq<string>, k: nat, streamed: string, options: Option<seq<QuickReply>>)
      requires k < |words| && streamed == Join(words[..k + 1], " ")
      modifies this`messages
      ensures messages == ShowStep(old(messages), id, streamed, k == |words| - 1, options)
      ensures old(messages) != [] && old(messages)[|old(messages)| - 1].id == id
        && old(messages)[|old(messages)| - 1].role == Assistant && old(messages)[|old(messages)| - 1].options == None
        ==> messages == old(messages)[..|old(messages)| - 1] + [StreamFrame(id, words, k, options)]
    {
      if messages != [] {
        var before, shown := messages[..|messages| - 1], messages[|messages| - 1];
        assert messages == before + [shown];
        if shown.id == id && shown.role == Assistant && shown.options == None {
          ShowStepFrame(before, shown, words, k, options);
        }
      }
      messages := ShowStep(messages, id, streamed, k == |words| - 1, options);
    }

    /**
     * The word loop of `streamResponse`: for each word, `ShowFrame` rewrites
     * the last message (the one being streamed, `id`) to show the words so far.
     */
    method ShowWords(id: MessageId, words: seq<string>, options: Option<seq<QuickReply>>) returns (ghost frames: seq<Message>)
      requires |words| > 0 && messages != [] && messages[|messages| - 1] == Message(id, Assistant, "", None)
      modifies this`messages
      ensures |frames| == |words| && messages == old(messages[..|messages| - 1]) + [frames[|words| - 1]]
      ensures forall k :: 0 <= k < |frames| ==> frames[k] == StreamFrame(id, words, k, options)
    {
      ghost var before := messages[..|messages| - 1];
      ghost var shown := messages[|messages| - 1];
      assert messages == before + [shown];
      var streamed := "";
      for i := 0 to |words|
        invariant streamed == Join(words[..i], " ")
        invariant messages == before + [shown]
        invariant shown.id == id && shown.role == Assistant && (i < |words| ==> shown.options == None)
        invariant i > 0 ==> shown == StreamFrame(id, words, i - 1, options)
      {
        JoinPrefixStep(words, i, " ");
        streamed := streamed + (if i == 0 then "" else " ") + words[i];
        assert messages[..|messages| - 1] == before && messages[|messages| - 1] == shown;
        ShowFrame(id, words, i, streamed, options);
        shown := StreamFrame(id, words, i, options);
        assert messages == before + [shown];
      }
      frames := seq(|words|, k requires 0 <= k < |words| => StreamFrame(id, words, k, options));
    }

    /**
     * `generateResponse`: classifies the lower-cased question, updates the
     * context, composes the reply on the updated context and streams it.
     */
    method GenerateResponse(userMessage: string)
      requires Valid()
      modifies this
      ensures Valid()
      ensures
        var turn := Respond(profile, old(context), userMessage);
        && context == turn.context
        && messages == old(messages) + [Message(Generated(old(nextId)), Assistant, turn.reply.text, Some(turn.reply.options))]
      ensures nextId == old(nextId) + 1 && questions == old(questions) + [Detect(Lower(userMessage)).intent]
    {
      var query := Lower(userMessage);
      var detectedIntent, subtopic := Classify(query);
      var updatedContext := Advance(context, detectedIntent);
      context := updatedContext;
      var reply := Compose(profile, detectedIntent, subtopic, updatedContext);
      if detectedIntent == Reset {
        context := INITIAL_CONTEXT;
      }
      ReplaySnoc(INITIAL_CONTEXT, questions, detectedIntent);
      questions := questions + [detectedIntent];
      var _ := StreamResponse(reply.text, Some(reply.options));
    }

    /** `handleUserInput`: the visitor's message, then the streamed reply. */
    method HandleUserInput(input: string)
      requires Valid()
      modifies this
      ensures Valid()
      ensures
        var turn := Respond(profile, old(context), input);
        && context == turn.context
        && messages == old(messages) + [
             Message(Generated(old(nextId)), User, input, None),
             Message(Generated(old(nextId) + 1), Assistant, turn.reply.text, Some(turn.reply.options))]
      ensures nextId == old(nextId) + 2 && questions == old(questions) + [Detect(Lower(input)).intent]
    {
      AddMessage(User, input, None);
      GenerateResponse(input);
    }

    /** `resetChat`: the context goes back to the initial one; the transcript is kept. */
    method ResetChat()
      requires Valid()
      modifies this
      ensures Valid()
      ensures context == INITIAL_CONTEXT && messages == old(messages) && nextId == old(nextId)
      ensures questions == old(questions) + [Reset]
    {
      ReplaySnoc(INITIAL_CONTEXT, questions, Reset);
      context := INITIAL_CONTEXT;
      questions := questions + [Reset];
    }
  }
}
