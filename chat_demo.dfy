/**
 * The demo chat page of v0_design/app/chat/page.tsx: a sent message is
 * appended at once and answered later by one of three canned replies, chosen
 * by keywords in the lower-cased message. Every message takes its id from a
 * counter that grows by one per message.
 */
module ChatDemo {
  import opened Text

  // ---------------------------------------------------------------------------
  // The keyword router
  // ---------------------------------------------------------------------------

  /** The three canned replies of `SIMULATED_RESPONSES`. */
  datatype Canned = IntroDraft | RewriteDraft | DefaultDraft

  const INTRO_KEYWORDS := ["intro", "opening", "start"]
  const REWRITE_KEYWORDS := ["rewrite", "clarity", "simplify", "improve"]

  /** Some keyword occurs in the (lower-cased) text. */
  predicate MentionsAny(lower: string, keywords: seq<string>) {
    exists k :: 0 <= k < |keywords| && Contains(lower, keywords[k])
  }

  /** `getSimulatedResponse`'s choice: the intro group is tested first, then the rewrite group. */
  function Route(message: string): (r: Canned)
    ensures r == IntroDraft <==> MentionsAny(Lower(message), INTRO_KEYWORDS)
    ensures r == RewriteDraft <==>
      !MentionsAny(Lower(message), INTRO_KEYWORDS) && MentionsAny(Lower(message), REWRITE_KEYWORDS)
    ensures r == DefaultDraft <==>
      !MentionsAny(Lower(message), INTRO_KEYWORDS) && !MentionsAny(Lower(message), REWRITE_KEYWORDS)
  {
    var lower := Lower(message);
    if MentionsAny(lower, INTRO_KEYWORDS) then IntroDraft
    else if MentionsAny(lower, REWRITE_KEYWORDS) then RewriteDraft
    else DefaultDraft
  }

  /** The router ignores letter case: a message and its lower-cased form get the same reply. */
  lemma RouteIgnoresCase(message: string)
    ensures Route(Lower(message)) == Route(message)
  {
    LowerIdempotent(message);
  }

  lemma KeywordsLowerCase(keywords: seq<string>, k: nat)
    requires keywords == INTRO_KEYWORDS || keywords == REWRITE_KEYWORDS
    requires k < |keywords|
    ensures Lower(keywords[k]) == keywords[k]
  {
    LowerNoCapitals(keywords[k]);
  }

  /** A keyword of the given group anywhere in the message, in any letter case, is seen by the router. */
  lemma KeywordSeen(pre: string, word: string, post: string, keywords: seq<string>, k: nat)
    requires keywords == INTRO_KEYWORDS || keywords == REWRITE_KEYWORDS
    requires k < |keywords| && Lower(word) == keywords[k]
    ensures MentionsAny(Lower(pre + word + post), keywords)
  {
    var kw := keywords[k];
    LowerAppend(pre + word, post);
    LowerAppend(pre, word);
    var lower := Lower(pre) + kw + Lower(post);
    assert lower[|Lower(pre)|..|Lower(pre)| + |kw|] == kw;
    ContainsAt(lower, kw, |Lower(pre)|);
  }

  /** An intro keyword anywhere wins, whatever else the message says. */
  lemma IntroKeywordWins(pre: string, word: string, post: string, k: nat)
    requires k < |INTRO_KEYWORDS| && Lower(word) == INTRO_KEYWORDS[k]
    ensures Route(pre + word + post) == IntroDraft
  {
    KeywordSeen(pre, word, post, INTRO_KEYWORDS, k);
  }

  /** A rewrite keyword gets the rewrite reply unless an intro keyword is present too. */
  lemma RewriteKeywordRoutes(pre: string, word: string, post: string, k: nat)
    requires k < |REWRITE_KEYWORDS| && Lower(word) == REWRITE_KEYWORDS[k]
    ensures Route(pre + word + post) != DefaultDraft
    ensures Route(pre + word + post) == RewriteDraft <==> !MentionsAny(Lower(pre + word + post), INTRO_KEYWORDS)
  {
    KeywordSeen(pre, word, post, REWRITE_KEYWORDS, k);
  }

  /** The reply text for each choice, as the page defines it. */
  function ResponseText(c: Canned): string {
    match c
    case IntroDraft => INTRO_RESPONSE
    case RewriteDraft => REWRITE_RESPONSE
    case DefaultDraft => DEFAULT_RESPONSE
  }

  /** `getSimulatedResponse(userMessage)`. */
  function SimulatedResponse(message: string): string {
    ResponseText(Route(message))
  }

  // ---------------------------------------------------------------------------
  // The page
  // ---------------------------------------------------------------------------

  datatype Role = User | Assistant

  datatype ChatMessage = ChatMessage(id: string, role: Role, content: string)

  /** The id `msg-${n}`. */
  function MsgId(n: nat): string {
    "msg-" + NatToString(n)
  }

  /** Different counter values give different ids. */
  lemma MsgIdInjective(m: nat, n: nat)
    requires MsgId(m) == MsgId(n)
    ensures m == n
  {
    assert MsgId(m)[4..] == NatToString(m);
    assert MsgId(n)[4..] == NatToString(n);
    NatToStringInjective(m, n);
  }

  /** Message `i` carries the id drawn when the counter stood at `i`. */
  predicate NumberedInOrder(messages: seq<ChatMessage>) {
    forall i :: 0 <= i < |messages| ==> messages[i].id == MsgId(i)
  }

  /** No two messages of the transcript share an id. */
  lemma IdsDistinct(messages: seq<ChatMessage>, i: nat, j: nat)
    requires NumberedInOrder(messages) && i < |messages| && j < |messages| && i != j
    ensures messages[i].id != messages[j].id
  {
    if messages[i].id == messages[j].id {
      MsgIdInjective(i, j);
    }
  }

  class ChatPage {
    var messages: seq<ChatMessage>
    var isTyping: bool
    /** `idCounter.current`. */
    var idCounter: nat
    /** The sent contents whose reply timer has not fired yet. */
    var pending: seq<string>
    /** `SIMULATED_RESPONSES`, looked up by the router's choice. */
    const replies: Canned -> string

    ghost predicate Valid()
      reads this
    {
      idCounter == |messages| && NumberedInOrder(messages)
    }

    constructor ()
      ensures Valid()
      ensures messages == [] && !isTyping && idCounter == 0 && pending == []
      ensures replies == ResponseText
    {
      messages := [];
      isTyping := false;
      idCounter := 0;
      pending := [];
      replies := ResponseText;
    }

    /** `handleSend(content)`: the user message is appended with the next id, typing starts and a reply is scheduled. */
    method HandleSend(content: string)
      requires Valid()
      modifies this
      ensures Valid()
      ensures messages == old(messages) + [ChatMessage(MsgId(old(idCounter)), User, content)]
      ensures isTyping && idCounter == old(idCounter) + 1
      ensures pending == old(pending) + [content]
    {
      var userMessage := ChatMessage(MsgId(idCounter), User, content);
      idCounter := idCounter + 1;
      messages := messages + [userMessage];
      isTyping := true;
      pending := pending + [content];
    }

    /**
     * The reply timer for the `k`-th pending content fires: the canned reply
     * is appended with the next id and typing stops. The delays are random,
     * so any pending reply may come first.
     */
    method DeliverReply(k: nat)
      requires Valid() && k < |pending|
      modifies this
      ensures Valid()
      ensures messages ==
        old(messages) + [ChatMessage(MsgId(old(idCounter)), Assistant, replies(Route(old(pending)[k])))]
      ensures !isTyping && idCounter == old(idCounter) + 1
      ensures pending == old(pending)[..k] + old(pending)[k + 1..]
    {
      var content := pending[k];
      var aiMessage := ChatMessage(MsgId(idCounter), Assistant, replies(Route(content)));
      idCounter := idCounter + 1;
      messages := messages + [aiMessage];
      isTyping := false;
      pending := pending[..k] + pending[k + 1..];
    }
  }

  // ---------------------------------------------------------------------------
  // The canned replies
  // ---------------------------------------------------------------------------

  const DEFAULT_RESPONSE :=
    "Here's a draft based on your request:\n" +
    "\n" +
    "## Content Draft\n" +
    "\n" +
    "Thank you for your prompt. I've crafted the following content using the **Professional Tone** writing style, which emphasizes clarity, authority, and a polished voice.\n" +
    "\n" +
    "### Key Points\n" +
    "\n" +
    "- **Clear structure** with logical flow between ideas\n" +
    "- **Active voice** to maintain reader engagement\n" +
    "- **Concise language** that respects the reader's time\n" +
    "\n" +
    "### Opening Paragraph\n" +
    "\n" +
    "In today's rapidly evolving landscape, organizations must adapt their communication strategies to remain competitive. This requires not only a deep understanding of audience needs but also the ability to articulate value propositions with precision and confidence.\n" +
    "\n" +
    "### Suggested Next Steps\n" +
    "\n" +
    "1. Review the draft for alignment with your brand guidelines\n" +
    "2. Consider adding specific data points or case studies\n" +
    "3. Adjust the call-to-action based on your campaign goals\n" +
    "\n" +
    "Would you like me to refine any section, adjust the tone, or expand on a particular point?"

  const INTRO_RESPONSE :=
    "## Introduction Draft\n" +
    "\n" +
    "**Compelling Hook:** In an era where attention is the most valuable currency, the first impression your content makes can determine its entire trajectory.\n" +
    "\n" +
    "This opening is designed to:\n" +
    "\n" +
    "- **Capture attention** within the first 3 seconds\n" +
    "- **Establish credibility** through confident, authoritative language\n" +
    "- **Set expectations** for what the reader will gain\n" +
    "\n" +
    "### Alternative Hooks\n" +
    "\n" +
    "1. *Question-based:* \"What if the difference between a good and great piece of content was just one paragraph?\"\n" +
    "2. *Data-driven:* \"Studies show that 80% of readers decide within 10 seconds whether to continue reading.\"\n" +
    "3. *Story-based:* \"When Sarah launched her first newsletter, she had exactly 3 subscribers...\"\n" +
    "\n" +
    "Which approach resonates most with your audience? I can develop any of these further."

  const REWRITE_RESPONSE :=
    "## Rewritten for Clarity\n" +
    "\n" +
    "I've restructured the content with these improvements:\n" +
    "\n" +
    "### Changes Made\n" +
    "\n" +
    "- **Simplified sentence structure** - Broke complex sentences into digestible chunks\n" +
    "- **Removed jargon** - Replaced technical terms with accessible alternatives\n" +
    "- **Added transitions** - Improved flow between paragraphs with connecting phrases\n" +
    "- **Strengthened verbs** - Replaced passive voice with active, dynamic language\n" +
    "\n" +
    "### Before vs After\n" +
    "\n" +
    "```\n" +
    "Before: \"The implementation of the solution was facilitated by the team.\"\n" +
    "After:  \"The team implemented the solution.\"\n" +
    "```\n" +
    "\n" +
    "The revised version reads at a **Grade 8 level**, making it accessible to 85% of English-speaking adults while maintaining a professional tone.\n" +
    "\n" +
    "Want me to adjust the reading level or make further refinements?"
}
