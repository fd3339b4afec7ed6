/** The assistant chat screen: an append-only transcript in which every
    non-blank message the user sends is followed by exactly one reply from the
    assistant. The chat request is a parameter: its answer or its failure. */
module Chat {
  import opened JsText

  datatype Message = Message(text: string, isUser: bool)

  /** What the chat request produced: the response body's `response` field,
      or a thrown error. */
  datatype ChatReply = Answered(response: Option<string>) | Failed

  const CouldNotProcess := "Sorry, I couldn't process that request."
  const TroubleProcessing := "Sorry, I had trouble processing your request. Please try again."

  /** The assistant's text for a reply: the server's text when it is
      non-empty, a fixed apology otherwise, another when the request failed. */
  function BotText(reply: ChatReply): (t: string)
    ensures reply.Answered? && Present(reply.response) ==> t == reply.response.value
    ensures reply.Answered? && !Present(reply.response) ==> t == CouldNotProcess
    ensures reply.Failed? ==> t == TroubleProcessing
  {
    match reply
    case Answered(r) => if Present(r) then r.value else CouldNotProcess
    case Failed => TroubleProcessing
  }

  const VideoSuggestions := ["Explain this video to me", "Summarize the main points", "What should I learn next?"]
  const GeneralSuggestions := ["What can you help me with?", "How do I create videos?", "Recommend me some videos"]

  /** The three suggestion pills of the welcome view: video-specific exactly
      when the screen was opened for a video. */
  function Suggestions(videoId: Option<string>): (r: seq<string>)
    ensures |r| == 3
    ensures r == VideoSuggestions <==> Present(videoId)
    ensures r == GeneralSuggestions <==> !Present(videoId)
  {
    if Present(videoId) then VideoSuggestions else GeneralSuggestions
  }

  // ---------------------------------------------------------------------------
  // The transcript
  // ---------------------------------------------------------------------------

  /** What one completed send does to the transcript. */
  function Exchange(msgs: seq<Message>, text: string, reply: ChatReply): seq<Message>
  {
    if IsBlank(text) then msgs else msgs + [Message(text, true), Message(BotText(reply), false)]
  }

  /** A send never removes or reorders what is already shown: the old
      transcript stays a prefix, and the list grows by two messages exactly
      when the text is not blank, the user's first. */
  lemma ExchangeExtends(msgs: seq<Message>, text: string, reply: ChatReply)
    ensures var r := Exchange(msgs, text, reply);
      r[..|msgs|] == msgs &&
      (IsBlank(text) ==> r == msgs) &&
      (!IsBlank(text) ==> |r| == |msgs| + 2 && r[|msgs|].isUser && !r[|msgs| + 1].isUser &&
                          r[|msgs|].text == text)
  {
  }

  /** One thing the user sent (blank or not) and the reply it would get. */
  datatype Turn = Turn(text: string, reply: ChatReply)

  /** The transcript after a sequence of completed sends from an empty chat. */
  function Conversation(turns: seq<Turn>): seq<Message>
  {
    if turns == [] then []
    else
      var last := turns[|turns| - 1];
      Exchange(Conversation(turns[..|turns| - 1]), last.text, last.reply)
  }

  /** The turns whose text is not blank, in order. */
  function SentTurns(turns: seq<Turn>): seq<Turn>
  {
    if turns == [] then []
    else
      var last := turns[|turns| - 1];
      SentTurns(turns[..|turns| - 1]) + (if IsBlank(last.text) then [] else [last])
  }

  /** The transcript holds two messages per non-blank send, in send order:
      the user's text as typed, then the assistant's reply to it. Blank sends
      leave no trace. */
  lemma {:induction false} ConversationShape(turns: seq<Turn>)
    ensures var c, sent := Conversation(turns), SentTurns(turns);
      |c| == 2 * |sent| &&
      forall k | 0 <= k < |sent| ::
        c[2 * k] == Message(sent[k].text, true) && c[2 * k + 1] == Message(BotText(sent[k].reply), false)
  {
    if turns != [] {
      var init := turns[..|turns| - 1];
      ConversationShape(init);
    }
  }

  /** Messages alternate: user messages at even positions, replies at odd ones. */
  lemma Alternates(turns: seq<Turn>)
    ensures forall i | 0 <= i < |Conversation(turns)| :: Conversation(turns)[i].isUser <==> i % 2 == 0
  {
    ConversationShape(turns);
    var c, sent := Conversation(turns), SentTurns(turns);
    forall i | 0 <= i < |c| ensures c[i].isUser <==> i % 2 == 0 {
      assert c[2 * (i / 2) + i % 2] == c[i];
    }
  }

  // ---------------------------------------------------------------------------
  // The screen
  // ---------------------------------------------------------------------------

  class ChatScreen {
    var messages: seq<Message>
    var inputText: string
    var isTyping: bool
    var showWelcome: bool
    const videoId: Option<string>

    constructor (videoId: Option<string>)
      ensures this.videoId == videoId
      ensures messages == [] && inputText == "" && !isTyping && showWelcome
    {
      this.videoId := videoId;
      messages, inputText, isTyping, showWelcome := [], "", false, true;
    }

    /** Typing into the input field. */
    method EditInput(text: string)
      modifies this`inputText
      ensures inputText == text
    {
      inputText := text;
    }

    /** The first half of `sendMessage`: ignore blank text, otherwise show the
        user's message, clear the input, hide the welcome view and show the
        typing indicator. */
    method SendMessage(text: string) returns (sent: bool)
      modifies this`messages, this`inputText, this`showWelcome, this`isTyping
      ensures sent <==> !IsBlank(text)
      ensures !sent ==> messages == old(messages) && inputText == old(inputText) &&
                        showWelcome == old(showWelcome) && isTyping == old(isTyping)
      ensures sent ==> messages == old(messages) + [Message(text, true)] &&
                       inputText == "" && !showWelcome && isTyping
    {
      if IsBlank(text) {
        return false;
      }
      messages := messages + [Message(text, true)];
      inputText := "";
      showWelcome := false;
      isTyping := true;
      sent := true;
    }

    /** The second half of `sendMessage`: append the assistant's reply or the
        failure text, and hide the typing indicator. */
    method ReceiveReply(reply: ChatReply)
      modifies this`messages, this`isTyping
      ensures messages == old(messages) + [Message(BotText(reply), false)]
      ensures !isTyping
    {
      messages := messages + [Message(BotText(reply), false)];
      isTyping := false;
    }

    /** A whole `sendMessage` whose request completes before the next send. */
    method Converse(text: string, reply: ChatReply) returns (sent: bool)
      modifies this`messages, this`inputText, this`showWelcome, this`isTyping
      ensures sent <==> !IsBlank(text)
      ensures messages == Exchange(old(messages), text, reply)
      ensures !sent ==> inputText == old(inputText) && showWelcome == old(showWelcome) &&
                        isTyping == old(isTyping)
      ensures sent ==> inputText == "" && !showWelcome && !isTyping
    {
      sent := SendMessage(text);
      if sent {
        ReceiveReply(reply);
      }
    }

    /** The send button sends the current input. */
    method PressSend(reply: ChatReply) returns (sent: bool)
      modifies this`messages, this`inputText, this`showWelcome, this`isTyping
      ensures sent <==> !IsBlank(old(inputText))
      ensures messages == Exchange(old(messages), old(inputText), reply)
      ensures !sent ==> inputText == old(inputText) && showWelcome == old(showWelcome) &&
                        isTyping == old(isTyping)
      ensures sent ==> inputText == "" && !showWelcome && !isTyping
    {
      sent := Converse(inputText, reply);
    }

    /** Tapping one of the suggestion pills sends its text. */
    method TapSuggestion(i: nat, reply: ChatReply) returns (sent: bool)
      requires i < 3
      modifies this`messages, this`inputText, this`showWelcome, this`isTyping
      ensures sent
      ensures inputText == "" && !showWelcome && !isTyping
      ensures messages == old(messages) + [Message(Suggestions(videoId)[i], true), Message(BotText(reply), false)]
    {
      var s := Suggestions(videoId);
      SuggestionsNotBlank(videoId, i);
      sent := Converse(s[i], reply);
    }
  }

  lemma SuggestionsNotBlank(videoId: Option<string>, i: nat)
    requires i < 3
    ensures !IsBlank(Suggestions(videoId)[i])
  {
    var s := Suggestions(videoId)[i];
    assert !IsWhitespace(s[0]);
  }
}
