/** What the three chat pages (components/ChatUI.tsx, app/ai_assistant/page.tsx,
    app/vision_assistant/page.tsx) have in common: who sent a message, the
    "Chat k" labels of the history, and the speech-recognition alert. */
module Chat {
  import opened Text

  datatype Sender = User | Ai

  /** A transcript entry of ChatUI and of the AI assistant page. */
  datatype Message = Message(sender: Sender, text: string)

  /** A history entry: a label and the texts of the saved transcript. */
  datatype ChatRecord = ChatRecord(topic: string, chats: seq<string>)

  const SpeechUnsupportedAlert := "Speech recognition is not supported in your browser."

  const TitlePrefix := "Chat "

  /** The label `Chat ${k}` of the k-th saved conversation. */
  function ChatTitle(k: nat): (t: string)
    ensures |t| > |TitlePrefix| && t[..|TitlePrefix|] == TitlePrefix
    ensures AllDigits(t[|TitlePrefix|..]) && ParseDigits(t[|TitlePrefix|..]) == k
  {
    ParseNatToString(k);
    var t := TitlePrefix + NatToString(k);
    assert t[|TitlePrefix|..] == NatToString(k);
    t
  }

  /** Different numbers give different labels. */
  lemma {:induction false} ChatTitleInjective(j: nat, k: nat)
    ensures ChatTitle(j) == ChatTitle(k) <==> j == k
  {
    if ChatTitle(j) == ChatTitle(k) {
      assert ChatTitle(j)[|TitlePrefix|..] == ChatTitle(k)[|TitlePrefix|..];
    }
  }

  /** `messages.map(msg => msg.text)`. */
  function Texts(ms: seq<Message>): (ts: seq<string>)
    ensures |ts| == |ms|
    ensures forall i :: 0 <= i < |ms| ==> ts[i] == ms[i].text
  {
    if ms == [] then [] else [ms[0].text] + Texts(ms[1..])
  }

  /** A history that grows at the end: entry i is labelled "Chat i+1". */
  predicate NumberedOldestFirst(history: seq<ChatRecord>) {
    forall i :: 0 <= i < |history| ==> history[i].topic == ChatTitle(i + 1)
  }

  /** In such a history no two entries share a label. */
  lemma {:induction false} OldestFirstTopicsDistinct(history: seq<ChatRecord>)
    requires NumberedOldestFirst(history)
    ensures forall i, j :: 0 <= i < j < |history| ==> history[i].topic != history[j].topic
  {
    forall i, j | 0 <= i < j < |history| ensures history[i].topic != history[j].topic {
      ChatTitleInjective(i + 1, j + 1);
    }
  }

  /** A history that grows at the front: with n entries, entry i is
      labelled "Chat n-i", so the newest comes first. */
  predicate NumberedNewestFirst(labels: seq<string>) {
    forall i :: 0 <= i < |labels| ==> labels[i] == ChatTitle(|labels| - i)
  }

  /** In such a history no label repeats and the first is the newest. */
  lemma {:induction false} NewestFirstLabelsDistinct(labels: seq<string>)
    requires NumberedNewestFirst(labels)
    ensures forall i, j :: 0 <= i < j < |labels| ==> labels[i] != labels[j]
    ensures labels != [] ==> labels[0] == ChatTitle(|labels|)
  {
    forall i, j | 0 <= i < j < |labels| ensures labels[i] != labels[j] {
      ChatTitleInjective(|labels| - i, |labels| - j);
    }
  }
}
