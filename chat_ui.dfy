/** components/ChatUI.tsx: the chat with the backend. The request to
    `/api/chat` is split at its `await`: `SendMessage` posts the prompt and
    `ReceiveReply` handles what came back. */
module ChatUi {
  import opened Wrappers
  import opened Text
  import opened Chat

  const FailureReply := "Sorry, something went wrong."

  /** What the request produced: the `text` of an ok response, or a failure
      (a non-ok status, a network error or a body that is not JSON). */
  datatype Reply = Answered(text: string) | Failed

  function ReplyText(reply: Reply): (t: string)
    ensures reply.Answered? ==> t == reply.text
    ensures reply.Failed? ==> t == FailureReply
  {
    match reply
    case Answered(text) => text
    case Failed => FailureReply
  }

  class ChatUI {
    var messages: seq<Message>
    var input: string
    var previousChats: seq<ChatRecord>
    /** Requests posted by `SendMessage` whose answer has not arrived. */
    var pendingReplies: nat

    ghost predicate Valid()
      reads this
    {
      NumberedOldestFirst(previousChats)
    }

    constructor()
      ensures Valid() && messages == [] && input == [] && previousChats == []
      ensures pendingReplies == 0
    {
      messages := [];
      input := [];
      previousChats := [];
      pendingReplies := 0;
    }

    /** Typing into the input, or a speech-recognition result. */
    method SetInput(text: string)
      requires Valid()
      modifies this
      ensures Valid() && input == text
      ensures messages == old(messages) && previousChats == old(previousChats)
      ensures pendingReplies == old(pendingReplies)
    {
      input := text;
    }

    /** The synchronous part of `sendMessage`: a blank input is ignored;
        otherwise the input, untrimmed, becomes a user message, the input
        is cleared, and the returned prompt is what gets posted. */
    method SendMessage() returns (prompt: Option<string>)
      requires Valid()
      modifies this
      ensures Valid()
      ensures previousChats == old(previousChats)
      ensures IsBlank(old(input)) <==> prompt.None?
      ensures prompt.None? ==>
        messages == old(messages) && input == old(input) && pendingReplies == old(pendingReplies)
      ensures prompt.Some? ==>
        prompt.value == old(input) && input == []
        && messages == old(messages) + [Message(User, old(input))]
        && pendingReplies == old(pendingReplies) + 1
    {
      if IsBlank(input) {
        return None;
      }
      messages := messages + [Message(User, input)];
      prompt := Some(input);
      input := [];
      pendingReplies := pendingReplies + 1;
    }

    /** The rest of `sendMessage`, for a request that was posted: exactly
        one AI message is appended, the reply's text or the apology. */
    method ReceiveReply(reply: Reply)
      requires Valid() && pendingReplies > 0
      modifies this
      ensures Valid()
      ensures messages == old(messages) + [Message(Ai, ReplyText(reply))]
      ensures input == old(input) && previousChats == old(previousChats)
      ensures pendingReplies == old(pendingReplies) - 1
    {
      messages := messages + [Message(Ai, ReplyText(reply))];
      pendingReplies := pendingReplies - 1;
    }

    /** `newChat`: the transcript, even an empty one, is saved at the end of
        the history as "Chat k+1", and a new transcript starts. */
    method NewChat()
      requires Valid()
      modifies this
      ensures Valid()
      ensures previousChats == old(previousChats) + [ChatRecord(ChatTitle(|old(previousChats)| + 1), Texts(old(messages)))]
      ensures messages == [] && input == old(input) && pendingReplies == old(pendingReplies)
    {
      previousChats := previousChats + [ChatRecord(ChatTitle(|previousChats| + 1), Texts(messages))];
      messages := [];
    }

    /** `startListening`: without speech recognition the user is alerted;
        otherwise recognition starts and its result arrives via `SetInput`. */
    method StartListening(supported: bool) returns (alert: Option<string>)
      requires Valid()
      ensures alert.Some? <==> !supported
      ensures alert.Some? ==> alert.value == SpeechUnsupportedAlert
    {
      if !supported {
        return Some(SpeechUnsupportedAlert);
      }
      return None;
    }
  }
}
