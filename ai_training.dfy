/**
 * The conversation review tab of src/app/ai-training/page.tsx: which
 * conversations are expanded, the search over lead names, the count of AI
 * messages, and the rating flow of one AI message (rate, comment, submit,
 * cancel, the success message).
 *
 * A rating request is returned as what it sends; its success is a separate
 * method. The four-second timer that hides the success message is the
 * `HideToast` method.
 */
module AiTraining {
  import opened Common
  import opened Text

  // ---------------------------------------------------------------------------
  // ConversationsTab

  /** The parts of a conversation the tab looks at: its id and its lead's name, if any. */
  datatype Conversation = Conversation(id: string, leadName: Option<string>)

  /** `toggleConversation` on the set of expanded ids. */
  function Toggled(expanded: set<string>, id: string): (r: set<string>)
    ensures id in r <==> id !in expanded
    ensures forall x :: x != id ==> (x in r <==> x in expanded)
  {
    if id in expanded then expanded - {id} else expanded + {id}
  }

  /** Toggling the same conversation twice leaves the set as it was. */
  lemma ToggleTwice(expanded: set<string>, id: string)
    ensures Toggled(Toggled(expanded, id), id) == expanded
  {
  }

  /** The filter callback of `filteredConversations`: an empty term keeps everything; otherwise the lower-cased name must include the lower-cased term. */
  predicate NameMatches(c: Conversation, term: string)
  {
    term == "" || Contains(ToLower(OrEmpty(c.leadName)), ToLower(term))
  }

  /** `filteredConversations`: undefined while loading, otherwise the matching conversations in order. */
  function FilteredConversations(conversations: Option<seq<Conversation>>, term: string): (r: Option<seq<Conversation>>)
    ensures r.None? <==> conversations.None?
    ensures r.Some? ==> forall c :: c in r.value ==> c in conversations.value && NameMatches(c, term)
  {
    if conversations.None? then None else Some(Filter(conversations.value, c => NameMatches(c, term)))
  }

  /** Every matching conversation is kept: the filter drops only those that do not match. */
  lemma FilteredConversationsComplete(conversations: seq<Conversation>, term: string, c: Conversation)
    requires c in conversations && NameMatches(c, term)
    ensures c in FilteredConversations(Some(conversations), term).value
  {
    FilterKeeps(conversations, x => NameMatches(x, term), c);
  }

  /** An empty search keeps every conversation. */
  lemma EmptyTermKeepsAll(conversations: seq<Conversation>)
    ensures FilteredConversations(Some(conversations), "") == Some(conversations)
  {
    FilterAll(conversations, c => NameMatches(c, ""));
  }

  /** The search ignores the case of the term: a term and its lower-case form select the same conversations. */
  lemma SearchIgnoresCase(conversations: seq<Conversation>, term: string)
    ensures FilteredConversations(Some(conversations), ToLower(term)) == FilteredConversations(Some(conversations), term)
  {
    ToLowerIdempotent(term);
    ToLowerEmptyIff(term);
    FilterSame(conversations, c => NameMatches(c, ToLower(term)), c => NameMatches(c, term));
  }

  /** A conversation without a lead name is found only by the empty search (the name counts as ""). */
  lemma UnnamedFoundOnlyByEmptyTerm(c: Conversation, term: string)
    requires !Truthy(c.leadName)
    ensures NameMatches(c, term) <==> term == ""
  {
    if term != "" {
      ToLowerEmptyIff(term);
      ContainsTooLong(ToLower(OrEmpty(c.leadName)), ToLower(term));
    }
  }

  /** The tab's state: the expanded conversations and the search term. */
  class ConversationsTab {
    var expanded: set<string>
    var searchTerm: string

    constructor()
      ensures expanded == {} && searchTerm == ""
    {
      expanded := {};
      searchTerm := "";
    }

    /** `toggleConversation(id)`: a copy of the set with `id` removed if present, added if absent. */
    method Toggle(id: string)
      modifies this`expanded
      ensures expanded == Toggled(old(expanded), id)
    {
      var next := expanded;
      if id in next {
        next := next - {id};
      } else {
        next := next + {id};
      }
      expanded := next;
    }
  }

  // ---------------------------------------------------------------------------
  // ConversationCard and MessageBubble

  /** A message of a conversation: who sent it and how many feedback entries it already has (`None` when the field is missing). */
  datatype Message = Message(id: string, senderType: string, feedback: Option<nat>)

  predicate IsAi(m: Message)
  {
    m.senderType == "ai"
  }

  /** `aiMessageCount`: the AI messages among those loaded, 0 while they load. */
  function AiMessageCount(messages: Option<seq<Message>>): (r: nat)
    ensures messages.None? ==> r == 0
    ensures messages.Some? ==> r <= |messages.value|
  {
    if messages.None? then 0 else Count(messages.value, IsAi)
  }

  /** The count is exact: with it, the non-AI messages make up the rest. */
  lemma AiMessageCountSplits(messages: seq<Message>)
    ensures AiMessageCount(Some(messages)) + |Filter(messages, m => !IsAi(m))| == |messages|
  {
    FilterPartition(messages, IsAi, m => !IsAi(m));
  }

  datatype Rating = Good | Bad | Improvable

  /** What `rateAiMessage` is sent: the rating and the optional comment and suggested answer. */
  datatype RateRequest = RateRequest(rating: Rating, comment: Option<string>, suggestedResponse: Option<string>)

  /** `text || undefined`: an empty text is not sent. */
  function Optional(text: string): (r: Option<string>)
    ensures r.None? <==> text == ""
    ensures r.Some? ==> r.value == text
  {
    if text == "" then None else Some(text)
  }

  const AutoLearned: string := "✨ AI bu örneği öğrendi! Knowledge Base'e eklendi."
  const FeedbackSaved: string := "Değerlendirme kaydedildi."

  /** The success message: the learning message for a bad or improvable rating that came with a suggested answer. */
  function SuccessMessage(sent: RateRequest): (r: string)
    ensures r == AutoLearned <==> (sent.rating == Bad || sent.rating == Improvable) && Truthy(sent.suggestedResponse)
    ensures r != AutoLearned ==> r == FeedbackSaved
  {
    if (sent.rating == Bad || sent.rating == Improvable) && Truthy(sent.suggestedResponse) then AutoLearned
    else FeedbackSaved
  }

  /** The state of one message bubble. */
  class MessageBubble {
    const message: Message
    var rating: Option<Rating>
    var showCommentBox: bool
    var comment: string
    var suggestedResponse: string
    var showSuccessToast: bool
    var autoLearnedMessage: string
    var ratePending: bool
    var rateSucceeded: bool

    constructor(message: Message)
      ensures this.message == message
      ensures rating == None && !showCommentBox && comment == "" && suggestedResponse == ""
      ensures !showSuccessToast && autoLearnedMessage == "" && !ratePending && !rateSucceeded
    {
      this.message := message;
      rating := None;
      showCommentBox := false;
      comment := "";
      suggestedResponse := "";
      showSuccessToast := false;
      autoLearnedMessage := "";
      ratePending := false;
      rateSucceeded := false;
    }

    /** `existingFeedback`: the message already has at least one feedback entry. */
    predicate ExistingFeedback()
    {
      message.feedback.Some? && message.feedback.value > 0
    }

    /** The rating buttons: an AI message, not rated here, no successful rating, no earlier feedback. */
    predicate ShowRatingButtons()
      reads this
    {
      IsAi(message) && rating.None? && !rateSucceeded && !ExistingFeedback()
    }

    /** `handleRate`: "good" is sent at once with nothing else; the other two open the comment box and send nothing. */
    method HandleRate(r: Rating) returns (sent: Option<RateRequest>)
      modifies this`rating, this`showCommentBox, this`ratePending
      ensures rating == Some(r)
      ensures r == Good ==>
        sent == Some(RateRequest(Good, None, None)) && ratePending && showCommentBox == old(showCommentBox)
      ensures r != Good ==> sent == None && showCommentBox && ratePending == old(ratePending)
    {
      rating := Some(r);
      if r == Good {
        sent := Some(RateRequest(Good, None, None));
        ratePending := true;
      } else {
        sent := None;
        showCommentBox := true;
      }
    }

    /** `handleSubmitWithComment`: with a rating chosen, sends it with the texts, an empty text being left out. */
    method SubmitWithComment() returns (sent: Option<RateRequest>)
      modifies this`ratePending
      ensures sent.Some? <==> rating.Some?
      ensures sent.Some? ==> sent.value == RateRequest(rating.value, Optional(comment), Optional(suggestedResponse))
      ensures ratePending == (old(ratePending) || sent.Some?)
    {
      if rating.Some? {
        sent := Some(RateRequest(rating.value, Optional(comment), Optional(suggestedResponse)));
        ratePending := true;
      } else {
        sent := None;
      }
    }

    /** The rating was stored: the comment box closes and the success message for what was sent appears. */
    method RateSucceeded(sent: RateRequest)
      modifies this`showCommentBox, this`autoLearnedMessage, this`showSuccessToast, this`ratePending, this`rateSucceeded
      ensures !showCommentBox && showSuccessToast && rateSucceeded && !ratePending
      ensures autoLearnedMessage == SuccessMessage(sent)
      ensures !ShowRatingButtons()
    {
      showCommentBox := false;
      autoLearnedMessage := SuccessMessage(sent);
      showSuccessToast := true;
      rateSucceeded := true;
      ratePending := false;
    }

    /** The timer four seconds after a success hides the message. */
    method HideToast()
      modifies this`showSuccessToast
      ensures !showSuccessToast
    {
      showSuccessToast := false;
    }

    /** The cancel button of the comment box: no rating, box closed. */
    method Cancel()
      modifies this`showCommentBox, this`rating
      ensures !showCommentBox && rating == None
    {
      showCommentBox := false;
      rating := None;
    }
  }

  /** Choosing "bad" and then cancelling brings the rating buttons back. */
  method RateBadThenCancel(b: MessageBubble)
    requires b.ShowRatingButtons()
    modifies b
    ensures b.ShowRatingButtons() && !b.showCommentBox
  {
    var sent := b.HandleRate(Bad);
    assert sent == None;
    b.Cancel();
  }

  /** A "good" rating, and any rating without a suggested answer, never shows the learning message. */
  lemma LearnsOnlyFromSuggestions(comment: string, rating: Rating)
    ensures SuccessMessage(RateRequest(Good, None, None)) == FeedbackSaved
    ensures SuccessMessage(RateRequest(rating, Optional(comment), Optional(""))) == FeedbackSaved
  {
  }
}
