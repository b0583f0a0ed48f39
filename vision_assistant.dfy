/** app/vision_assistant/page.tsx: a chat whose user messages may carry an
    image instead of text, with a history of labels kept newest first. */
module VisionAssistant {
  import opened Wrappers
  import opened Text
  import opened Chat

  const CannedReply := "I'm here to support you. How can I assist?"

  /** A transcript entry: text, an image (a data URL), or neither. */
  datatype VisionMessage = VisionMessage(sender: Sender, text: Option<string>, image: Option<string>)

  class VisionAssistantPage {
    var messages: seq<VisionMessage>
    var input: string
    var previousChats: seq<string>
    /** Replies scheduled by `setTimeout` and not yet delivered. */
    var pendingReplies: nat

    ghost predicate Valid()
      reads this
    {
      NumberedNewestFirst(previousChats)
    }

    constructor()
      ensures Valid() && messages == [] && input == [] && previousChats == [] && pendingReplies == 0
    {
      messages := [];
      input := [];
      previousChats := [];
      pendingReplies := 0;
    }

    method SetInput(text: string)
      requires Valid()
      modifies this
      ensures Valid() && input == text
      ensures messages == old(messages) && previousChats == old(previousChats)
      ensures pendingReplies == old(pendingReplies)
    {
      input := text;
    }

    /** `sendMessage`: a blank input is ignored; otherwise the input becomes
        a text message from the user, the input is cleared and a reply is
        scheduled. */
    method SendMessage() returns (accepted: bool)
      requires Valid()
      modifies this
      ensures Valid()
      ensures accepted <==> !IsBlank(old(input))
      ensures previousChats == old(previousChats)
      ensures !accepted ==> messages == old(messages) && input == old(input) && pendingReplies == old(pendingReplies)
      ensures accepted ==>
        messages == old(messages) + [VisionMessage(User, Some(old(input)), None)] && input == []
        && pendingReplies == old(pendingReplies) + 1
    {
      if IsBlank(input) {
        return false;
      }
      messages := messages + [VisionMessage(User, Some(input), None)];
      input := [];
      pendingReplies := pendingReplies + 1;
      return true;
    }

    /** A scheduled reply fires: the canned text is appended as an AI message. */
    method OnReplyTimer()
      requires Valid() && pendingReplies > 0
      modifies this
      ensures Valid()
      ensures messages == old(messages) + [VisionMessage(Ai, Some(CannedReply), None)]
      ensures pendingReplies == old(pendingReplies) - 1
      ensures input == old(input) && previousChats == old(previousChats)
    {
      messages := messages + [VisionMessage(Ai, Some(CannedReply), None)];
      pendingReplies := pendingReplies - 1;
    }

    /** `startNewChat`: a non-empty transcript adds the label "Chat k+1" at
        the front of the history; the transcript is always emptied. */
    method StartNewChat()
      requires Valid()
      modifies this
      ensures Valid()
      ensures old(messages) != [] ==> previousChats == [ChatTitle(|old(previousChats)| + 1)] + old(previousChats)
      ensures old(messages) == [] ==> previousChats == old(previousChats)
      ensures messages == [] && input == old(input) && pendingReplies == old(pendingReplies)
    {
      if |messages| > 0 {
        previousChats := [ChatTitle(|previousChats| + 1)] + previousChats;
      }
      messages := [];
    }

    /** The FileReader's `onload` for an uploaded or dropped file: a user
        message carrying the image and no text. */
    method OnImageLoaded(dataUrl: string)
      requires Valid()
      modifies this
      ensures Valid()
      ensures messages == old(messages) + [VisionMessage(User, None, Some(dataUrl))]
      ensures input == old(input) && previousChats == old(previousChats)
      ensures pendingReplies == old(pendingReplies)
    {
      messages := messages + [VisionMessage(User, None, Some(dataUrl))];
    }
  }
}
