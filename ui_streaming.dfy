/** The streaming page's controls (components/chat/chat-streaming.tsx): the prompt box,
    the Abort button that replaces Send while a reply streams, and Reset. */
module StreamingUI {
  import opened Common
  import opened UIParts
  import opened Composer

  const OpeningPrompt: string := "Tell me a story"
  const FollowUpPrompt: string := "Continue the story..."

  predicate IsStreaming(m: UIMessage) {
    m.status == "streaming"
  }

  /** `toUIMessages(messages).find((m) => m.status === "streaming")`. */
  function StreamingMessage(msgs: seq<UIMessage>): (r: Option<UIMessage>)
    ensures r.None? <==> forall k :: 0 <= k < |msgs| ==> !IsStreaming(msgs[k])
    ensures r.Some? ==> r.value in msgs && IsStreaming(r.value)
  {
    First(msgs, IsStreaming)
  }

  /** The Abort button is shown, in place of Send, iff some message is streaming. */
  predicate ShowAbort(msgs: seq<UIMessage>) {
    StreamingMessage(msgs).Some?
  }

  /** `find(...)?.order ?? 0`: the order the Abort button asks to stop. */
  function AbortOrder(msgs: seq<UIMessage>): (r: int)
    ensures ShowAbort(msgs) ==>
      exists i :: 0 <= i < |msgs| && IsStreaming(msgs[i]) && r == msgs[i].order && (forall j :: 0 <= j < i ==> !IsStreaming(msgs[j]))
    ensures !ShowAbort(msgs) ==> r == 0
  {
    match StreamingMessage(msgs)
    case Some(m) => m.order
    case None => 0
  }

  /** The arguments of `abortStreamByOrder` when the button is clicked: it can only be
      clicked while it is shown. */
  function AbortRequest(threadId: string, msgs: seq<UIMessage>): (r: Option<(string, int)>)
    ensures r.Some? <==> ShowAbort(msgs)
    ensures r.Some? ==> r.value.0 == threadId && r.value.1 == AbortOrder(msgs)
  {
    if ShowAbort(msgs) then Some((threadId, AbortOrder(msgs))) else None
  }

  /** The earliest streaming message decides; later ones do not. */
  lemma AbortTargetsEarliestStream(msgs: seq<UIMessage>, later: seq<UIMessage>)
    requires ShowAbort(msgs)
    ensures AbortOrder(msgs + later) == AbortOrder(msgs)
  {
    FirstAppend(msgs, later, IsStreaming);
  }

  /** Reset is offered only when the thread has messages. */
  predicate ResetOffered(messageCount: nat) {
    messageCount > 0
  }

  /** The page's prompt box: it opens with "Tell me a story", shows "Continue the
      story..." once a prompt is sent, and sends the prompt untrimmed. */
  method NewStoryBox() returns (box: PromptBox)
    ensures fresh(box)
    ensures box.prompt == OpeningPrompt && box.initial == OpeningPrompt
    ensures box.afterSend == FollowUpPrompt && !box.trimOnSend
  {
    box := new PromptBox(OpeningPrompt, FollowUpPrompt, false);
  }

  /** Reset, when offered, puts the opening prompt back. */
  method OnResetClicked(box: PromptBox, messageCount: nat)
    requires box.initial == OpeningPrompt
    modifies box
    ensures ResetOffered(messageCount) ==> box.prompt == OpeningPrompt
    ensures !ResetOffered(messageCount) ==> box.prompt == old(box.prompt)
  {
    if ResetOffered(messageCount) {
      box.Reset();
    }
  }
}
