/**
 * The canned-response matcher of the Assistant page and the message
 * list it feeds. The matcher lower-cases the message and tries four
 * keyword rules in order; the first that fires picks one of four fixed
 * replies, and a fifth fixed reply asks for clarification.
 */
module Assistant {
  import opened Text
  import Seqs

  datatype Topic = SpendingAnalysis | SavingsTips | InvestmentAdvice | BudgetReview | Clarify

  const SpendingReply: string := "Based on your transaction history, I can see you spend most on Food & Dining ($520/month) and Transportation ($320/month). Here are some insights:\n\n• Your food spending is 65% of your budget - consider meal planning to reduce costs\n• Transportation costs are well within budget\n• You have good saving habits with consistent monthly contributions\n\nWould you like specific recommendations for any category?"

  const SavingsReply: string := "Here are personalized savings strategies for you:\n\n• **Automate savings**: Set up automatic transfers of $200 after each paycheck\n• **50/30/20 rule**: Allocate 50% to needs, 30% to wants, 20% to savings\n• **Cut subscription audit**: Review and cancel unused subscriptions (potential $50/month savings)\n• **Cook more at home**: Reducing dining out by 30% could save $150/month\n\nImplementing these could increase your savings by $400/month!"

  const InvestmentReply: string := "Based on your financial profile, here are investment recommendations:\n\n• **Emergency fund first**: Ensure 3-6 months of expenses before investing\n• **Index funds**: Start with low-cost index funds (S&P 500) for diversification\n• **Dollar-cost averaging**: Invest $300-500 monthly consistently\n• **Tax-advantaged accounts**: Maximize 401(k) and IRA contributions\n\nYour current savings rate suggests you could comfortably invest $400/month. Start small and gradually increase!"

  const BudgetReply: string := "Your budget analysis shows:\n\n**Strengths:**\n• Good income-to-expense ratio\n• Consistent savings contributions\n• Transportation costs under control\n\n**Areas for improvement:**\n• Food budget exceeded by $120 (30%)\n• Entertainment spending at 93% of budget\n• No allocation for unexpected expenses\n\n**Recommendations:**\n• Increase food budget to $600 or implement cost-cutting strategies\n• Add a 'miscellaneous' category for unexpected expenses\n• Consider increasing your emergency fund target"

  const ClarifyReply: string := "I understand you're looking for financial guidance. As your AI assistant, I can help with budgeting, saving strategies, investment planning, and spending analysis. Could you be more specific about what aspect of your finances you'd like to focus on?"

  function ReplyText(t: Topic): string
  {
    match t
    case SpendingAnalysis => SpendingReply
    case SavingsTips => SavingsReply
    case InvestmentAdvice => InvestmentReply
    case BudgetReview => BudgetReply
    case Clarify => ClarifyReply
  }

  /** The five fixed replies, one per topic. */
  const Replies: seq<string> := [
    ReplyText(SpendingAnalysis), ReplyText(SavingsTips), ReplyText(InvestmentAdvice),
    ReplyText(BudgetReview), ReplyText(Clarify)
  ]

  /** Every keyword the matcher looks for, in the order it looks. */
  const Keywords: seq<string> := ["spending", "analyze", "save", "savings", "invest", "investment", "budget", "review"]

  /** The lower-cased message contains `keyword`. */
  ghost predicate Mentions(message: string, keyword: string)
  {
    IsSubstring(keyword, Lower(message))
  }

  lemma InvestmentMentionsInvest(h: string)
    ensures IsSubstring("investment", h) ==> IsSubstring("invest", h)
  {
    if IsSubstring("investment", h) {
      WordAt("investment", "invest", 0);
      SubstringTransitive("invest", "investment", h);
    }
  }

  /** `generateResponse` without its text: which reply a message gets.
      The rules are tried in order and the first that fires wins; the
      "investment" test is subsumed by the "invest" test before it. */
  function Classify(message: string): (t: Topic)
    ensures t == SpendingAnalysis <==> Mentions(message, "spending") || Mentions(message, "analyze")
    ensures t == SavingsTips <==>
      && !(Mentions(message, "spending") || Mentions(message, "analyze"))
      && (Mentions(message, "save") || Mentions(message, "savings"))
    ensures t == InvestmentAdvice <==>
      && !(Mentions(message, "spending") || Mentions(message, "analyze"))
      && !(Mentions(message, "save") || Mentions(message, "savings"))
      && Mentions(message, "invest")
    ensures t == BudgetReview <==>
      && !(Mentions(message, "spending") || Mentions(message, "analyze"))
      && !(Mentions(message, "save") || Mentions(message, "savings"))
      && !Mentions(message, "invest")
      && (Mentions(message, "budget") || Mentions(message, "review"))
    ensures t == Clarify <==> forall i :: 0 <= i < |Keywords| ==> !Mentions(message, Keywords[i])
  {
    var lower := Lower(message);
    InvestmentMentionsInvest(lower);
    assert Keywords[0] == "spending" && Keywords[1] == "analyze" && Keywords[2] == "save" && Keywords[3] == "savings";
    assert Keywords[4] == "invest" && Keywords[5] == "investment" && Keywords[6] == "budget" && Keywords[7] == "review";
    if Includes(lower, "spending") || Includes(lower, "analyze") then SpendingAnalysis
    else if Includes(lower, "save") || Includes(lower, "savings") then SavingsTips
    else if Includes(lower, "invest") || Includes(lower, "investment") then InvestmentAdvice
    else if Includes(lower, "budget") || Includes(lower, "review") then BudgetReview
    else Clarify
  }

  /** `generateResponse`: always one of the five fixed replies, and the
      clarification reply exactly when no keyword occurs. */
  function GenerateResponse(message: string): (r: string)
    ensures r in Replies
    ensures r == ClarifyReply <==> forall i :: 0 <= i < |Keywords| ==> !Mentions(message, Keywords[i])
  {
    ReplyText(Classify(message))
  }

  /** Case is ignored: messages with the same lower-case form get the same reply. */
  lemma ClassifyIgnoresCase(m1: string, m2: string)
    requires Lower(m1) == Lower(m2)
    ensures Classify(m1) == Classify(m2)
  {
  }

  lemma ClassifyOfLower(message: string)
    ensures Classify(Lower(message)) == Classify(message)
  {
    LowerIsLower(message);
    ClassifyIgnoresCase(Lower(message), message);
  }

  /** The same matcher as an ordered table of (keywords, topic) rules. */
  datatype Rule = Rule(keywords: seq<string>, topic: Topic)

  const Rules: seq<Rule> := [
    Rule(["spending", "analyze"], SpendingAnalysis),
    Rule(["save", "savings"], SavingsTips),
    Rule(["invest", "investment"], InvestmentAdvice),
    Rule(["budget", "review"], BudgetReview)
  ]

  predicate Fires(rule: Rule, lower: string)
  {
    exists i :: 0 <= i < |rule.keywords| && Includes(lower, rule.keywords[i])
  }

  /** The topic of the first rule that fires, or `Clarify` when none does. */
  function FirstMatch(rules: seq<Rule>, lower: string): (t: Topic)
    ensures forall k ::
              (0 <= k < |rules| && Fires(rules[k], lower) && forall j :: 0 <= j < k ==> !Fires(rules[j], lower))
              ==> t == rules[k].topic
    ensures (forall k :: 0 <= k < |rules| ==> !Fires(rules[k], lower)) ==> t == Clarify
  {
    if |rules| == 0 then Clarify
    else if Fires(rules[0], lower) then rules[0].topic
    else FirstMatch(rules[1..], lower)
  }

  lemma FiresEither(rule: Rule, lower: string)
    requires |rule.keywords| == 2
    ensures Fires(rule, lower) <==> Includes(lower, rule.keywords[0]) || Includes(lower, rule.keywords[1])
  {
    if Includes(lower, rule.keywords[0]) {
      assert Fires(rule, lower);
    }
    if Includes(lower, rule.keywords[1]) {
      assert Fires(rule, lower);
    }
  }

  /** The rule table and the chain of tests agree on every message. */
  lemma RuleTableAgrees(message: string)
    ensures FirstMatch(Rules, Lower(message)) == Classify(message)
  {
    var lower := Lower(message);
    FiresEither(Rules[0], lower);
    FiresEither(Rules[1], lower);
    FiresEither(Rules[2], lower);
    FiresEither(Rules[3], lower);
  }
  /** First match wins: a message naming both spending and saving gets the spending reply. */
  lemma SpendingBeforeSavings(message: string)
    requires Mentions(message, "spending") && Mentions(message, "save")
    ensures GenerateResponse(message) == SpendingReply
  {
  }

  /** The prompts of the four quick-action cards, each written as word
      groups (see `Concat`) so that facts about it can be checked one
      group at a time. */

  // "Can you analyze my spending patterns and provide insights?"
  const SpendingPrompt: seq<string> := ["Can you analyze ", "my spending ", "patterns and ", "provide insights?"]

  // "What are some ways I can save more money based on my current financial situation?"
  const SavingsPrompt: seq<string> :=
    ["What are some ", "ways I can save ", "more money ", "based on my ", "current financial ", "situation?"]

  // "Can you suggest some investment strategies suitable for my risk profile?"
  const InvestmentPrompt: seq<string> :=
    ["Can you suggest ", "some investment ", "strategies ", "suitable for ", "my risk profile?"]

  // "Please review my current budget and suggest improvements"
  const BudgetPrompt: seq<string> := ["Please review ", "my current ", "budget and ", "suggest ", "improvements"]

  /** A quick-action card: its title and the prompt it sends. */
  datatype QuickAction = QuickAction(title: string, pieces: seq<string>)
  {
    function Prompt(): string
    {
      Concat(pieces)
    }
  }

  const SpendingAction: QuickAction := QuickAction("Spending Analysis", SpendingPrompt)
  const SavingsAction: QuickAction := QuickAction("Savings Tips", SavingsPrompt)
  const InvestmentAction: QuickAction := QuickAction("Investment Advice", InvestmentPrompt)
  const BudgetAction: QuickAction := QuickAction("Budget Review", BudgetPrompt)

  /** A prompt missing a letter of `keyword` does not mention it. */
  lemma LacksChar(pieces: seq<string>, keyword: string, c: char)
    requires c in keyword
    requires forall i :: 0 <= i < |pieces| ==> c !in Lower(pieces[i])
    ensures !Mentions(Concat(pieces), keyword)
  {
    CharAbsentFromConcat(pieces, c);
    AbsentByChar(keyword, Lower(Concat(pieces)), c);
  }

  /** A prompt missing two adjacent letters of `keyword` does not mention it. */
  lemma LacksPair(pieces: seq<string>, keyword: string, k: nat)
    requires k + 1 < |keyword| && keyword[k] != ' '
    requires forall i :: 0 <= i < |pieces| - 1 ==> |pieces[i]| > 0 && pieces[i][|pieces[i]| - 1] == ' '
    requires forall i :: 0 <= i < |pieces| ==> !HasPair(Lower(pieces[i]), keyword[k], keyword[k + 1])
    ensures !Mentions(Concat(pieces), keyword)
  {
    PairAbsentFromConcat(pieces, keyword[k], keyword[k + 1]);
    AbsentByPair(keyword, Lower(Concat(pieces)), k);
  }

  /** A prompt one of whose groups holds `keyword` from index `i` on mentions it. */
  lemma HasWord(pieces: seq<string>, keyword: string, k: nat, i: nat)
    requires k < |pieces| && i + |keyword| <= |pieces[k]|
    requires forall j :: 0 <= j < |keyword| ==> Lower(pieces[k])[i + j] == keyword[j]
    ensures Mentions(Concat(pieces), keyword)
  {
    WordAt(Lower(pieces[k]), keyword, i);
    SubstringOfConcat(keyword, pieces, k);
  }

  /* One lemma per fact: each certificate is checked on its own. */

  lemma SpendingPromptMentionsSpending()
    ensures Mentions(Concat(SpendingPrompt), "spending")
  {
    HasWord(SpendingPrompt, "spending", 1, 3);
  }

  lemma SpendingPromptTopic()
    ensures Classify(Concat(SpendingPrompt)) == SpendingAnalysis
  {
    SpendingPromptMentionsSpending();
  }

  lemma SavingsPromptLacksSpending()
    ensures !Mentions(Concat(SavingsPrompt), "spending")
  {
    LacksChar(SavingsPrompt, "spending", 'p');
  }

  lemma SavingsPromptLacksAnalyze()
    ensures !Mentions(Concat(SavingsPrompt), "analyze")
  {
    LacksChar(SavingsPrompt, "analyze", 'z');
  }

  lemma SavingsPromptMentionsSave()
    ensures Mentions(Concat(SavingsPrompt), "save")
  {
    HasWord(SavingsPrompt, "save", 1, 11);
  }

  lemma SavingsPromptTopic()
    ensures Classify(Concat(SavingsPrompt)) == SavingsTips
  {
    SavingsPromptLacksSpending();
    SavingsPromptLacksAnalyze();
    SavingsPromptMentionsSave();
  }

  lemma InvestmentPromptLacksSpending()
    ensures !Mentions(Concat(InvestmentPrompt), "spending")
  {
    LacksChar(InvestmentPrompt, "spending", 'd');
  }

  lemma InvestmentPromptLacksAnalyze()
    ensures !Mentions(Concat(InvestmentPrompt), "analyze")
  {
    LacksChar(InvestmentPrompt, "analyze", 'z');
  }

  lemma InvestmentPromptLacksSave()
    ensures !Mentions(Concat(InvestmentPrompt), "save")
  {
    LacksPair(InvestmentPrompt, "save", 0);
  }

  lemma InvestmentPromptLacksSavings()
    ensures !Mentions(Concat(InvestmentPrompt), "savings")
  {
    LacksPair(InvestmentPrompt, "savings", 0);
  }

  lemma InvestmentPromptMentionsInvest()
    ensures Mentions(Concat(InvestmentPrompt), "invest")
  {
    HasWord(InvestmentPrompt, "invest", 1, 5);
  }

  lemma InvestmentPromptTopic()
    ensures Classify(Concat(InvestmentPrompt)) == InvestmentAdvice
  {
    InvestmentPromptLacksSpending();
    InvestmentPromptLacksAnalyze();
    InvestmentPromptLacksSave();
    InvestmentPromptLacksSavings();
    InvestmentPromptMentionsInvest();
  }

  lemma BudgetPromptLacksSpending()
    ensures !Mentions(Concat(BudgetPrompt), "spending")
  {
    LacksPair(BudgetPrompt, "spending", 0);
  }

  lemma BudgetPromptLacksAnalyze()
    ensures !Mentions(Concat(BudgetPrompt), "analyze")
  {
    LacksChar(BudgetPrompt, "analyze", 'z');
  }

  lemma BudgetPromptLacksSave()
    ensures !Mentions(Concat(BudgetPrompt), "save")
  {
    LacksPair(BudgetPrompt, "save", 0);
  }

  lemma BudgetPromptLacksSavings()
    ensures !Mentions(Concat(BudgetPrompt), "savings")
  {
    LacksPair(BudgetPrompt, "savings", 0);
  }

  lemma BudgetPromptLacksInvest()
    ensures !Mentions(Concat(BudgetPrompt), "invest")
  {
    LacksPair(BudgetPrompt, "invest", 0);
  }

  lemma BudgetPromptLacksInvestment()
    ensures !Mentions(Concat(BudgetPrompt), "investment")
  {
    LacksPair(BudgetPrompt, "investment", 0);
  }

  lemma BudgetPromptMentionsBudget()
    ensures Mentions(Concat(BudgetPrompt), "budget")
  {
    HasWord(BudgetPrompt, "budget", 2, 0);
  }

  lemma BudgetPromptTopic()
    ensures Classify(Concat(BudgetPrompt)) == BudgetReview
  {
    BudgetPromptLacksSpending();
    BudgetPromptLacksAnalyze();
    BudgetPromptLacksSave();
    BudgetPromptLacksSavings();
    BudgetPromptLacksInvest();
    BudgetPromptLacksInvestment();
    BudgetPromptMentionsBudget();
  }

  /** The suggestions under the greeting. */
  const InitialSuggestions: seq<string> := [
    "Analyze my spending patterns",
    "Suggest budget improvements",
    "Investment recommendations",
    "Debt payoff strategies"
  ]

  /** The suggestions under every reply, whatever its topic. */
  const FollowUpSuggestions: seq<string> := [
    "Tell me more about this",
    "What are the next steps?",
    "Show me an example",
    "How can I implement this?"
  ]

  /** A message missing a letter of `keyword` does not mention it. */
  lemma MessageLacksChar(message: string, keyword: string, c: char)
    requires c in keyword && c !in Lower(message)
    ensures !Mentions(message, keyword)
  {
    AbsentByChar(keyword, Lower(message), c);
  }

  /** A message missing two adjacent letters of `keyword` does not mention it. */
  lemma MessageLacksPair(message: string, keyword: string, k: nat)
    requires k + 1 < |keyword|
    requires !HasPair(Lower(message), keyword[k], keyword[k + 1])
    ensures !Mentions(message, keyword)
  {
    AbsentByPair(keyword, Lower(message), k);
  }

  /** "Analyze my spending patterns" gets the spending reply. */
  lemma SpendingSuggestionTopic()
    ensures Classify(InitialSuggestions[0]) == SpendingAnalysis
  {
    WordAt(Lower(InitialSuggestions[0]), "spending", 11);
  }

  lemma BudgetSuggestionLacksSpending()
    ensures !Mentions(InitialSuggestions[1], "spending")
  {
    MessageLacksPair(InitialSuggestions[1], "spending", 0);
  }

  lemma BudgetSuggestionLacksAnalyze()
    ensures !Mentions(InitialSuggestions[1], "analyze")
  {
    MessageLacksChar(InitialSuggestions[1], "analyze", 'z');
  }

  lemma BudgetSuggestionLacksSave()
    ensures !Mentions(InitialSuggestions[1], "save")
  {
    MessageLacksChar(InitialSuggestions[1], "save", 'a');
  }

  lemma BudgetSuggestionLacksSavings()
    ensures !Mentions(InitialSuggestions[1], "savings")
  {
    MessageLacksChar(InitialSuggestions[1], "savings", 'a');
  }

  lemma BudgetSuggestionLacksInvest()
    ensures !Mentions(InitialSuggestions[1], "invest")
  {
    MessageLacksPair(InitialSuggestions[1], "invest", 0);
  }

  /** "Suggest budget improvements" gets the budget reply. */
  lemma BudgetSuggestionTopic()
    ensures Classify(InitialSuggestions[1]) == BudgetReview
  {
    BudgetSuggestionLacksSpending();
    BudgetSuggestionLacksAnalyze();
    BudgetSuggestionLacksSave();
    BudgetSuggestionLacksSavings();
    BudgetSuggestionLacksInvest();
    WordAt(Lower(InitialSuggestions[1]), "budget", 8);
  }

  lemma InvestmentSuggestionLacksSpending()
    ensures !Mentions(InitialSuggestions[2], "spending")
  {
    MessageLacksChar(InitialSuggestions[2], "spending", 'p');
  }

  lemma InvestmentSuggestionLacksAnalyze()
    ensures !Mentions(InitialSuggestions[2], "analyze")
  {
    MessageLacksChar(InitialSuggestions[2], "analyze", 'z');
  }

  lemma InvestmentSuggestionLacksSave()
    ensures !Mentions(InitialSuggestions[2], "save")
  {
    MessageLacksPair(InitialSuggestions[2], "save", 0);
  }

  lemma InvestmentSuggestionLacksSavings()
    ensures !Mentions(InitialSuggestions[2], "savings")
  {
    MessageLacksChar(InitialSuggestions[2], "savings", 'g');
  }

  /** "Investment recommendations" gets the investment reply. */
  lemma InvestmentSuggestionTopic()
    ensures Classify(InitialSuggestions[2]) == InvestmentAdvice
  {
    InvestmentSuggestionLacksSpending();
    InvestmentSuggestionLacksAnalyze();
    InvestmentSuggestionLacksSave();
    InvestmentSuggestionLacksSavings();
    WordAt(Lower(InitialSuggestions[2]), "invest", 0);
  }

  lemma DebtSuggestionLacksSpending()
    ensures !Mentions(InitialSuggestions[3], "spending")
  {
    MessageLacksChar(InitialSuggestions[3], "spending", 'n');
  }

  lemma DebtSuggestionLacksAnalyze()
    ensures !Mentions(InitialSuggestions[3], "analyze")
  {
    MessageLacksChar(InitialSuggestions[3], "analyze", 'n');
  }

  lemma DebtSuggestionLacksSave()
    ensures !Mentions(InitialSuggestions[3], "save")
  {
    MessageLacksChar(InitialSuggestions[3], "save", 'v');
  }

  lemma DebtSuggestionLacksSavings()
    ensures !Mentions(InitialSuggestions[3], "savings")
  {
    MessageLacksChar(InitialSuggestions[3], "savings", 'v');
  }

  lemma DebtSuggestionLacksInvest()
    ensures !Mentions(InitialSuggestions[3], "invest")
  {
    MessageLacksChar(InitialSuggestions[3], "invest", 'n');
  }

  lemma DebtSuggestionLacksInvestment()
    ensures !Mentions(InitialSuggestions[3], "investment")
  {
    MessageLacksChar(InitialSuggestions[3], "investment", 'n');
  }

  lemma DebtSuggestionLacksBudget()
    ensures !Mentions(InitialSuggestions[3], "budget")
  {
    MessageLacksChar(InitialSuggestions[3], "budget", 'u');
  }

  lemma DebtSuggestionLacksReview()
    ensures !Mentions(InitialSuggestions[3], "review")
  {
    MessageLacksChar(InitialSuggestions[3], "review", 'v');
  }

  /** "Debt payoff strategies" mentions no keyword and gets the clarification reply. */
  lemma DebtSuggestionTopic()
    ensures Classify(InitialSuggestions[3]) == Clarify
  {
    DebtSuggestionLacksSpending();
    DebtSuggestionLacksAnalyze();
    DebtSuggestionLacksSave();
    DebtSuggestionLacksSavings();
    DebtSuggestionLacksInvest();
    DebtSuggestionLacksInvestment();
    DebtSuggestionLacksBudget();
    DebtSuggestionLacksReview();
  }

  datatype Option<T> = None | Some(value: T)

  datatype MessageType = FromUser | FromAssistant

  /** A chat message; the timestamp is not modelled. */
  datatype Message = Message(id: int, content: string, kind: MessageType, suggestions: Option<seq<string>>)

  /** The message list and the text in the input box. */
  datatype Chat = Chat(messages: seq<Message>, input: string)

  const Greeting: string := "Hello! I'm your AI financial assistant. I can help you with budgeting, investment advice, spending analysis, and financial planning. What would you like to know?"

  const InitialChat: Chat := Chat([Message(1, Greeting, FromAssistant, Some(InitialSuggestions))], "")

  /** `!input.trim()`: the send button does nothing for this input. */
  predicate IsBlank(input: string)
  {
    Trim(input) == ""
  }

  /** The two messages one exchange adds: the user's text, then the
      reply with the follow-up suggestions; ids continue the count. */
  function Exchange(messages: seq<Message>, input: string, reply: string): (r: seq<Message>)
    ensures |r| == |messages| + 2 && r[..|messages|] == messages
    ensures r[|messages|] == Message(|messages| + 1, input, FromUser, None)
    ensures r[|messages| + 1] == Message(|messages| + 2, reply, FromAssistant, Some(FollowUpSuggestions))
  {
    var n := |messages|;
    var r := messages + [Message(n + 1, input, FromUser, None),
                         Message(n + 2, reply, FromAssistant, Some(FollowUpSuggestions))];
    assert r[..n] == messages;
    r
  }

  /** `handleSendMessage`, with the reply that follows after the delay
      appended at once: a blank input changes nothing; otherwise the
      user's message and the reply to it are appended and the box cleared. */
  function Send(chat: Chat): (r: Chat)
    ensures IsBlank(chat.input) ==> r == chat
    ensures !IsBlank(chat.input) ==>
      var n := |chat.messages|;
      && |r.messages| == n + 2
      && r.messages[..n] == chat.messages
      && r.messages[n].content == chat.input && r.messages[n].kind == FromUser
      && r.messages[n + 1].content == GenerateResponse(chat.input) && r.messages[n + 1].kind == FromAssistant
      && r.input == ""
  {
    if IsBlank(chat.input) then chat
    else Chat(Exchange(chat.messages, chat.input, GenerateResponse(chat.input)), "")
  }

  /** The reply answers what the user sent, and is one of the fixed replies. */
  lemma SendReplies(chat: Chat)
    requires !IsBlank(chat.input)
    ensures var m := Send(chat).messages[|chat.messages| + 1];
      m.kind == FromAssistant && m.content in Replies && m.suggestions == Some(FollowUpSuggestions)
  {
  }

  function UserMessages(messages: seq<Message>): seq<Message>
  {
    Seqs.Filter(messages, (m: Message) => m.kind == FromUser)
  }

  /** An exchange adds exactly one user message, whatever the reply. */
  lemma ExchangeAddsOneUserMessage(messages: seq<Message>, input: string, reply: string)
    ensures |UserMessages(Exchange(messages, input, reply))| == |UserMessages(messages)| + 1
  {
    var added := Exchange(messages, input, reply);
    var n := |messages|;
    var isUser := (m: Message) => m.kind == FromUser;
    assert added == messages + [added[n], added[n + 1]];
    Seqs.FilterAppend(messages, [added[n], added[n + 1]], isUser);
    assert Seqs.Filter([added[n], added[n + 1]], isUser) == [added[n]];
  }

  /** Sending appends exactly one user message when the input holds
      something other than white space, and changes nothing otherwise. */
  lemma SendCountsUserMessages(chat: Chat)
    ensures (exists i :: 0 <= i < |chat.input| && !IsWhiteSpace(chat.input[i])) ==>
      |UserMessages(Send(chat).messages)| == |UserMessages(chat.messages)| + 1
    ensures (forall i :: 0 <= i < |chat.input| ==> IsWhiteSpace(chat.input[i])) ==>
      Send(chat) == chat
  {
    TrimEmptyIff(chat.input);
    ExchangeAddsOneUserMessage(chat.messages, chat.input, GenerateResponse(chat.input));
  }

  /** Message ids are their 1-based positions. */
  ghost predicate IdsArePositions(messages: seq<Message>)
  {
    forall i :: 0 <= i < |messages| ==> messages[i].id == i + 1
  }

  lemma ExchangeKeepsIdsPositional(messages: seq<Message>, input: string, reply: string)
    requires IdsArePositions(messages)
    ensures IdsArePositions(Exchange(messages, input, reply))
  {
    var r := Exchange(messages, input, reply);
    forall i | 0 <= i < |messages|
      ensures r[i].id == i + 1
    {
      assert r[i] == r[..|messages|][i];
    }
  }

  lemma SendKeepsIdsPositional(chat: Chat)
    requires IdsArePositions(chat.messages)
    ensures IdsArePositions(Send(chat).messages)
  {
    ExchangeKeepsIdsPositional(chat.messages, chat.input, GenerateResponse(chat.input));
  }

  /** Clicking a suggestion only fills the input box. */
  function ClickSuggestion(chat: Chat, suggestion: string): (r: Chat)
    ensures r.messages == chat.messages && r.input == suggestion
  {
    chat.(input := suggestion)
  }

  /** A prompt whose first group starts with a visible character is not blank. */
  lemma PromptNotBlank(pieces: seq<string>)
    requires |pieces| > 0 && |pieces[0]| > 0 && !IsWhiteSpace(pieces[0][0])
    ensures !IsBlank(Concat(pieces))
  {
    assert Concat(pieces)[0] == pieces[0][0];
    TrimEmptyIff(Concat(pieces));
  }

  /** A quick-action click as the page performs it. The click stores the
      prompt in the input box, but the send that runs 100 ms later was
      captured before that update and reads the box as it was at the click. */
  function QuickActionAsWritten(chat: Chat, action: QuickAction): (r: Chat)
    ensures IsBlank(chat.input) ==> r.messages == chat.messages && r.input == action.Prompt()
    ensures !IsBlank(chat.input) ==> r == Send(chat)
  {
    if IsBlank(chat.input) then ClickSuggestion(chat, action.Prompt()) else Send(chat)
  }

  /** A quick-action click as intended: the prompt is sent and answered,
      whatever the box held before. */
  function SendQuickAction(chat: Chat, action: QuickAction): (r: Chat)
    ensures !IsBlank(action.Prompt()) ==>
      r == Chat(Exchange(chat.messages, action.Prompt(), GenerateResponse(action.Prompt())), "")
  {
    Send(ClickSuggestion(chat, action.Prompt()))
  }

  /** From the opening screen, clicking "Spending Analysis" as written
      sends nothing: the prompt only lands in the input box. */
  lemma QuickActionAsWrittenSendsNothing()
    ensures QuickActionAsWritten(InitialChat, SpendingAction) == InitialChat.(input := Concat(SpendingPrompt))
  {
    assert IsBlank(InitialChat.input);
  }

  /** The intended click sends the prompt and gets the spending reply. */
  lemma SendQuickActionAnswers()
    ensures var r := SendQuickAction(InitialChat, SpendingAction);
      |r.messages| == 3 && r.messages[1].content == Concat(SpendingPrompt)
      && r.messages[2].content == SpendingReply
  {
    PromptNotBlank(SpendingPrompt);
    SpendingPromptTopic();
  }
}
