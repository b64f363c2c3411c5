/** The chat assistant: its welcome per context, the ordered keyword rules that pick a reply,
    and the conversation the send step builds. Reply bodies are canned texts; the model names
    each by a tag. */
module ChatBot {
  import opened Text
  import opened Layout

  datatype Welcome = DashboardWelcome | PipelineWelcome | AnalyticsWelcome | AssistantWelcome

  /** `getWelcomeMessage`: one greeting per named context, a default for the rest. */
  function WelcomeFor(ctx: ChatContext): (w: Welcome)
    ensures w == DashboardWelcome <==> ctx == DashboardContext
    ensures w == PipelineWelcome <==> ctx == PipelineContext
    ensures w == AnalyticsWelcome <==> ctx == AnalyticsContext
    ensures w == AssistantWelcome <==> ctx == GeneralContext
  {
    match ctx
    case DashboardContext => DashboardWelcome
    case PipelineContext => PipelineWelcome
    case AnalyticsContext => AnalyticsWelcome
    case GeneralContext => AssistantWelcome
  }

  /** Distinct contexts are greeted differently. */
  lemma WelcomesDiffer(a: ChatContext, b: ChatContext)
    requires a != b
    ensures WelcomeFor(a) != WelcomeFor(b)
  {
  }

  /** The canned replies. `Help` carries the capitalised context name it shows, `Default` the
      question it quotes. */
  datatype Reply =
    | ConversionAnalysis | RevenueAnalysis | TeamAnalysis
    | PipelineStatus | DelayAnalysis
    | TrendForecast
    | Help(contextTitle: string)
    | Default(quoted: string)

  /** The context's name as it is passed in, with its first letter upper-cased. */
  function ContextTitle(ctx: ChatContext): string
  {
    match ctx
    case DashboardContext => "Dashboard"
    case PipelineContext => "Pipeline"
    case AnalyticsContext => "Analytics"
    case GeneralContext => "General"
  }

  predicate AsksConversion(lower: string) { Contains(lower, "conversion") || Contains(lower, "rate") }
  predicate AsksRevenue(lower: string) { Contains(lower, "revenue") || Contains(lower, "value") || Contains(lower, "money") }
  predicate AsksTeam(lower: string) { Contains(lower, "team") || Contains(lower, "performance") }
  predicate AsksStatus(lower: string) { Contains(lower, "status") || Contains(lower, "rfp") || Contains(lower, "pipeline") }
  predicate AsksDelay(lower: string) { Contains(lower, "delay") || Contains(lower, "late") || Contains(lower, "overdue") }
  predicate AsksTrend(lower: string) { Contains(lower, "trend") || Contains(lower, "forecast") || Contains(lower, "prediction") }
  predicate AsksHelp(lower: string) { Contains(lower, "help") || Contains(lower, "what can you do") }

  /** Some rule of the context itself applies. */
  predicate ContextRuleFires(lower: string, ctx: ChatContext)
  {
    match ctx
    case DashboardContext => AsksConversion(lower) || AsksRevenue(lower) || AsksTeam(lower)
    case PipelineContext => AsksStatus(lower) || AsksDelay(lower)
    case AnalyticsContext => AsksTrend(lower)
    case GeneralContext => false
  }

  /** `generateAdvancedBotResponse`: the context's rules in order on the lower-cased input, then
      the help rule, then the default reply quoting the input as typed. */
  function BotReply(input: string, ctx: ChatContext): (r: Reply)
    ensures var lower := ToLower(input);
      && (r == ConversionAnalysis <==> ctx == DashboardContext && AsksConversion(lower))
      && (r == RevenueAnalysis <==> ctx == DashboardContext && !AsksConversion(lower) && AsksRevenue(lower))
      && (r == TeamAnalysis <==>
           ctx == DashboardContext && !AsksConversion(lower) && !AsksRevenue(lower) && AsksTeam(lower))
      && (r == PipelineStatus <==> ctx == PipelineContext && AsksStatus(lower))
      && (r == DelayAnalysis <==> ctx == PipelineContext && !AsksStatus(lower) && AsksDelay(lower))
      && (r == TrendForecast <==> ctx == AnalyticsContext && AsksTrend(lower))
      && (r.Help? <==> !ContextRuleFires(lower, ctx) && AsksHelp(lower))
      && (r.Help? ==> r.contextTitle == ContextTitle(ctx))
      && (r.Default? <==> !ContextRuleFires(lower, ctx) && !AsksHelp(lower))
      && (r.Default? ==> r.quoted == input)
  {
    var lower := ToLower(input);
    if ctx == DashboardContext && AsksConversion(lower) then ConversionAnalysis
    else if ctx == DashboardContext && AsksRevenue(lower) then RevenueAnalysis
    else if ctx == DashboardContext && AsksTeam(lower) then TeamAnalysis
    else if ctx == PipelineContext && AsksStatus(lower) then PipelineStatus
    else if ctx == PipelineContext && AsksDelay(lower) then DelayAnalysis
    else if ctx == AnalyticsContext && AsksTrend(lower) then TrendForecast
    else if AsksHelp(lower) then Help(ContextTitle(ctx))
    else Default(input)
  }

  /** Case does not matter: the lower-cased input gets the same reply, except that a default
      reply quotes whichever text was typed. */
  lemma ReplyIgnoresCase(input: string, ctx: ChatContext)
    ensures BotReply(ToLower(input), ctx).Default? == BotReply(input, ctx).Default?
    ensures !BotReply(input, ctx).Default? ==> BotReply(ToLower(input), ctx) == BotReply(input, ctx)
  {
    ToLowerIdempotent(input);
  }

  /** Matching is by substring: "corporate" contains "rate", so on the dashboard it is a
      question about conversion. */
  lemma CorporateAsksConversion()
    ensures BotReply("Corporate", DashboardContext) == ConversionAnalysis
  {
    var lower := ToLower("Corporate");
    assert lower[5..9] == "rate" by {
      assert lower[5] == 'r' && lower[6] == 'a' && lower[7] == 't' && lower[8] == 'e';
    }
    assert OccursAt(lower, "rate", 5);
    ContainsIff(lower, "rate");
    assert AsksConversion(lower);
  }

  datatype Sender = UserSender | BotSender

  /** What a message shows: the typed text, a greeting or a reply. */
  datatype Body = Typed(text: string) | Greeting(welcome: Welcome) | Answer(reply: Reply)

  datatype Message = Message(sender: Sender, body: Body, category: ChatContext)

  /** The user's messages, in order. */
  function Sent(ms: seq<Message>): (sent: seq<Message>)
    ensures |sent| <= |ms|
    ensures forall i :: 0 <= i < |sent| ==> sent[i].body.Typed?
  {
    if ms == [] then []
    else
      var last := ms[|ms| - 1];
      Sent(ms[..|ms| - 1]) + (if last.body.Typed? then [last] else [])
  }

  /** The replies the assistant gave, in order. */
  function Replies(ms: seq<Message>): (replies: seq<Reply>)
    ensures |replies| <= |ms|
  {
    if ms == [] then []
    else
      var last := ms[|ms| - 1];
      Replies(ms[..|ms| - 1]) + (if last.body.Answer? then [last.body.reply] else [])
  }

  lemma SentAppend(ms: seq<Message>, m: Message)
    ensures Sent(ms + [m]) == Sent(ms) + (if m.body.Typed? then [m] else [])
  {
    assert (ms + [m])[..|ms|] == ms;
  }

  lemma RepliesAppend(ms: seq<Message>, m: Message)
    ensures Replies(ms + [m]) == Replies(ms) + (if m.body.Answer? then [m.body.reply] else [])
  {
    assert (ms + [m])[..|ms|] == ms;
  }

  /** The reply a sent message gets: its text read in the context it was sent from, which
      the delayed reply captures at sending time. */
  function ReplyTo(m: Message): Reply
    requires m.body.Typed?
  {
    BotReply(m.body.text, m.category)
  }

  /** The conversation answers the user's messages in order: the k-th reply is the reply to
      the k-th message, and the messages not yet answered are exactly those awaiting a reply. */
  ghost predicate AnsweredInOrder(ms: seq<Message>, awaiting: seq<Message>)
  {
    var sent, replies := Sent(ms), Replies(ms);
    && |replies| + |awaiting| == |sent|
    && awaiting == sent[|replies|..]
    && forall k :: 0 <= k < |replies| ==> replies[k] == ReplyTo(sent[k])
  }

  /** Sending a message keeps the conversation answered in order, now awaiting that message too. */
  lemma {:induction false} SendKeepsOrder(ms: seq<Message>, awaiting: seq<Message>, text: string, ctx: ChatContext)
    requires AnsweredInOrder(ms, awaiting)
    ensures var m := Message(UserSender, Typed(text), ctx);
      AnsweredInOrder(ms + [m], awaiting + [m])
  {
    var m := Message(UserSender, Typed(text), ctx);
    SentAppend(ms, m);
    RepliesAppend(ms, m);
    var sent := Sent(ms);
    assert (sent + [m])[|Replies(ms)|..] == sent[|Replies(ms)|..] + [m];
  }

  /** Answering the oldest waiting message keeps the conversation answered in order. */
  lemma {:induction false} ReplyKeepsOrder(ms: seq<Message>, awaiting: seq<Message>)
    requires AnsweredInOrder(ms, awaiting) && awaiting != []
    ensures awaiting[0].body.Typed?
    ensures var m := Message(BotSender, Answer(ReplyTo(awaiting[0])), awaiting[0].category);
      AnsweredInOrder(ms + [m], awaiting[1..])
  {
    var sent, replies := Sent(ms), Replies(ms);
    assert sent[|replies|] == awaiting[0];
    var m := Message(BotSender, Answer(ReplyTo(awaiting[0])), awaiting[0].category);
    SentAppend(ms, m);
    RepliesAppend(ms, m);
  }

  class ChatWidget {
    /** The context the layout passes in; it can change after the chat has opened. */
    var context: ChatContext
    var messages: seq<Message>
    var inputText: string
    var isTyping: bool
    /** The sent messages whose delayed reply is scheduled and not yet delivered, oldest first. */
    var awaiting: seq<Message>

    ghost predicate Valid()
      reads this
    {
      AnsweredInOrder(messages, awaiting)
    }

    /** A new chat opens with the greeting of the context it starts in. */
    constructor(ctx: ChatContext)
      ensures Valid()
      ensures context == ctx
      ensures messages == [Message(BotSender, Greeting(WelcomeFor(ctx)), ctx)]
      ensures inputText == "" && !isTyping && awaiting == []
    {
      var greeting := Message(BotSender, Greeting(WelcomeFor(ctx)), ctx);
      assert [greeting] == [] + [greeting];
      SentAppend([], greeting);
      RepliesAppend([], greeting);
      context := ctx;
      messages := [greeting];
      inputText := "";
      isTyping := false;
      awaiting := [];
    }

    /** A new context from the layout: the conversation so far, greeting included, stays. */
    method SetContext(ctx: ChatContext)
      requires Valid()
      modifies this
      ensures Valid()
      ensures context == ctx
      ensures messages == old(messages) && inputText == old(inputText)
      ensures isTyping == old(isTyping) && awaiting == old(awaiting)
    {
      context := ctx;
    }

    /** Typing into the input box. */
    method SetInputText(text: string)
      requires Valid()
      modifies this
      ensures Valid()
      ensures inputText == text
      ensures context == old(context) && messages == old(messages)
      ensures isTyping == old(isTyping) && awaiting == old(awaiting)
    {
      inputText := text;
    }

    /** `handleSendMessage`: blank input does nothing; otherwise the text is posted as the
        user's message, the box is cleared and a reply to that message is scheduled. */
    method SendMessage()
      requires Valid()
      modifies this
      ensures Valid()
      ensures context == old(context)
      ensures IsBlank(old(inputText)) ==>
        messages == old(messages) && inputText == old(inputText) && isTyping == old(isTyping) && awaiting == old(awaiting)
      ensures !IsBlank(old(inputText)) ==>
        var sent := Message(UserSender, Typed(old(inputText)), context);
        && messages == old(messages) + [sent]
        && inputText == "" && isTyping
        && awaiting == old(awaiting) + [sent]
    {
      TrimEmptyIffBlank(inputText);
      if Trim(inputText) == "" {
        return;
      }
      var sent := Message(UserSender, Typed(inputText), context);
      SendKeepsOrder(messages, awaiting, inputText, context);
      messages := messages + [sent];
      awaiting := awaiting + [sent];
      inputText := "";
      isTyping := true;
    }

    /** The delayed reply to the oldest waiting message arrives, filed under the context that
        message was sent from, and the typing indicator goes off. */
    method ReplyArrives()
      requires Valid() && awaiting != []
      modifies this
      ensures Valid()
      ensures old(awaiting)[0].body.Typed?
      ensures var question := old(awaiting)[0];
        messages == old(messages) + [Message(BotSender, Answer(BotReply(question.body.text, question.category)), question.category)]
      ensures awaiting == old(awaiting)[1..]
      ensures !isTyping && inputText == old(inputText) && context == old(context)
    {
      ReplyKeepsOrder(messages, awaiting);
      var question := awaiting[0];
      messages := messages + [Message(BotSender, Answer(ReplyTo(question)), question.category)];
      awaiting := awaiting[1..];
      isTyping := false;
    }
  }
}
