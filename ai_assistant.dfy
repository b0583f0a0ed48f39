/** app/ai_assistant/page.tsx: the same chat as ChatUI, with a fixed reply
    delivered by a timer and a listening indicator. */
module AiAssistant {
  import opened Wrappers
  import opened Text
  import opened Chat

  const CannedReply := "My Strong Girl, How is everything going on? Want to share something with me?"

  class AiAssistantPage {
    var messages: seq<Message>
    var input: string
    var previousChats: seq<ChatRecord>
    var isListening: bool
    /** Replies scheduled by `setTimeout` and not yet delivered. */
    var pendingReplies: nat

    ghost predicate Valid()
      reads this
    {
      NumberedOldestFirst(previousChats)
    }

    constructor()
      ensures Valid() && messages == [] && input == [] && previousChats == []
      ensures !isListening && pendingReplies == 0
    {
      messages := [];
      input := [];
      previousChats := [];
      isListening := false;
      pendingReplies := 0;
    }

    method SetInput(text: string)
      requires Valid()
      modifies this
      ensures Valid() && input == text
      ensures messages == old(messages) && previousChats == old(previousChats)
      ensures isListening == old(isListening) && pendingReplies == old(pendingReplies)
    {
      input := text;
    }

    /** `sendMessage`: a blank input is ignored; otherwise the input becomes
        a user message, the input is cleared and a reply is scheduled. */
    method SendMessage() returns (accepted: bool)
      requires Valid()
      modifies this
      ensures Valid()
      ensures accepted <==> !IsBlank(old(input))
      ensures previousChats == old(previousChats) && isListening == old(isListening)
      ensures !accepted ==> messages == old(messages) && input == old(input) && pendingReplies == old(pendingReplies)
      ensures accepted ==>
        messages == old(messages) + [Message(User, old(input))] && input == []
        && pendingReplies == old(pendingReplies) + 1
    {
      if IsBlank(input) {
        return false;
      }
      messages := messages + [Message(User, input)];
      input := [];
      pendingReplies := pendingReplies + 1;
      return true;
    }

    /** A scheduled reply fires: the canned text is appended as an AI message. */
    method OnReplyTimer()
      requires Valid() && pendingReplies > 0
      modifies this
      ensures Valid()
      ensures messages == old(messages) + [Message(Ai, CannedReply)]
      ensures pendingReplies == old(pendingReplies) - 1
      ensures input == old(input) && previousChats == old(previousChats) && isListening == old(isListening)
    {
      messages := messages + [Message(Ai, CannedReply)];
      pendingReplies := pendingReplies - 1;
    }

    /** `newChat`: the transcript, even an empty one, is saved at the end of
        the history as "Chat k+1", and a new transcript starts. */
    method NewChat()
      requires Valid()
      modifies this
      ensures Valid()
      ensures previousChats == old(previousChats) + [ChatRecord(ChatTitle(|old(previousChats)| + 1), Texts(old(messages)))]
      ensures messages == []
      ensures input == old(input) && isListening == old(isListening) && pendingReplies == old(pendingReplies)
    {
      previousChats := previousChats + [ChatRecord(ChatTitle(|previousChats| + 1), Texts(messages))];
      messages := [];
    }

    /** `startListening` without browser support only alerts. */
    method StartListening(supported: bool) returns (alert: Option<string>)
      requires Valid()
      ensures alert.Some? <==> !supported
      ensures alert.Some? ==> alert.value == SpeechUnsupportedAlert
    {
      if !supported {
        return Some(SpeechUnsupportedAlert);
      }
      return None;
    }

    /** The recognizer's `onstart`. */
    method OnRecognitionStart()
      requires Valid()
      modifies this
      ensures Valid() && isListening
      ensures messages == old(messages) && input == old(input)
      ensures previousChats == old(previousChats) && pendingReplies == old(pendingReplies)
    {
      isListening := true;
    }

    /** The recognizer's `onend`. */
    method OnRecognitionEnd()
      requires Valid()
      modifies this
      ensures Valid() && !isListening
      ensures messages == old(messages) && input == old(input)
      ensures previousChats == old(previousChats) && pendingReplies == old(pendingReplies)
    {
      isListening := false;
    }

    /** The recognizer's `onresult`: the transcript replaces the input. */
    method OnRecognitionResult(transcript: string)
      requires Valid()
      modifies this
      ensures Valid() && input == transcript
      ensures messages == old(messages) && isListening == old(isListening)
      ensures previousChats == old(previousChats) && pendingReplies == old(pendingReplies)
    {
      input := transcript;
    }
  }
}
