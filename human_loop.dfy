/** The human-in-the-loop backend (convex/chat/humanLoop.ts): the agent may ask the user
    to confirm the end of the conversation; the user's answer is saved as the tool's
    result and a continuation is generated for either answer. */
module HumanLoop {
  import opened Common
  import opened Store
  import Threads

  /** `initiateChat`: check access, save the prompt, then schedule `processMessage` for it. */
  method InitiateChat(db: Db, prompt: string, threadId: string) returns (r: Outcome<Error>)
    requires db.Valid()
    modifies db
    ensures db.Valid()
    ensures r == old(Threads.AuthorizeThreadAccess(db, threadId, false))
    ensures r.Fail? ==> unchanged(db)
    ensures r.Pass? ==> Appended(db, [PromptMessage(threadId, prompt)],
      [MessageSaved(|old(db.messages)|), Scheduled(Store.ProcessMessage(threadId, |old(db.messages)|))])
  {
    r := Threads.AuthorizeThreadAccess(db, threadId, false);
    if r.Fail? {
      return;
    }
    var messageId := db.SaveMessage(PromptMessage(threadId, prompt));
    db.Record(Scheduled(Store.ProcessMessage(threadId, messageId)));
  }

  /** `processMessage`: answer the saved message with the agent's own instructions. */
  method ProcessMessage(db: Db, promptMessageId: MessageId, threadId: string)
    requires db.Valid()
    modifies db
    ensures db.Valid()
    ensures Appended(db, [], [StreamText(Generation(threadId, Some(promptMessageId), None, None, []))])
  {
    db.Record(StreamText(Generation(threadId, Some(promptMessageId), None, None, [])));
  }

  /** The tool result saved for the user's answer: "the user confirmed/cancelled ending
      the conversation", the verb being the only part that differs. */
  function ToolResultText(confirmed: bool): (r: string)
    ensures |r| == 8 && StartsWith(r, "用户") && EndsWith(r, "结束对话")
    ensures r[2..4] == (if confirmed then "确认" else "取消")
  {
    if confirmed then "用户确认结束对话" else "用户取消结束对话"
  }

  /** The saved text tells the two answers apart. */
  lemma ToolResultTextInjective(a: bool, b: bool)
    requires ToolResultText(a) == ToolResultText(b)
    ensures a == b
  {
    assert ToolResultText(a)[2..4] == ToolResultText(b)[2..4];
  }

  /** The role-"tool" message answering the tool call `toolCallId`. */
  function ConfirmationMessage(threadId: string, confirmed: bool, toolCallId: string): (m: Message)
    ensures m.threadId == threadId && m.body.role == Tool && m.body.toolCallId == Some(toolCallId)
    ensures m.body.content == TextContent(ToolResultText(confirmed))
  {
    Message(threadId, MessageBody(Tool, TextContent(ToolResultText(confirmed)), Some(toolCallId)), None, None)
  }

  /** `handleConfirmation`: check access, save the answer as the tool's result, then
      schedule the continuation with the same thread and answer. */
  method HandleConfirmation(db: Db, threadId: string, confirmed: bool, toolCallId: string)
    returns (r: Outcome<Error>)
    requires db.Valid()
    modifies db
    ensures db.Valid()
    ensures r == old(Threads.AuthorizeThreadAccess(db, threadId, false))
    ensures r.Fail? ==> unchanged(db)
    ensures r.Pass? ==> Appended(db, [ConfirmationMessage(threadId, confirmed, toolCallId)],
      [MessageSaved(|old(db.messages)|), Scheduled(Store.ContinueAfterConfirmation(threadId, confirmed))])
  {
    r := Threads.AuthorizeThreadAccess(db, threadId, false);
    if r.Fail? {
      return;
    }
    var _ := db.SaveMessage(ConfirmationMessage(threadId, confirmed, toolCallId));
    db.Record(Scheduled(Store.ContinueAfterConfirmation(threadId, confirmed)));
  }

  /** The marker the farewell must end with. */
  const EndMarker: string := "[------ 对话结束 ------]"

  /** The prompt of the continuation: a farewell ending with the end marker, or an
      invitation to keep chatting. */
  function ContinuationPrompt(confirmed: bool): (r: string)
    ensures confirmed <==> EndsWith(r, EndMarker)
  {
    if confirmed then "用户确认了结束对话，请生成友好的告别消息并加上结束标识 [------ 对话结束 ------]"
    else "用户取消了结束对话，请继续友好地与用户交流。"
  }

  /** `continueAfterConfirmation`: exactly one generation, from the prompt for the answer. */
  method ContinueAfterConfirmation(db: Db, threadId: string, confirmed: bool)
    requires db.Valid()
    modifies db
    ensures db.Valid()
    ensures Appended(db, [], [StreamText(Generation(threadId, None, Some(ContinuationPrompt(confirmed)), None, []))])
  {
    db.Record(StreamText(Generation(threadId, None, Some(ContinuationPrompt(confirmed)), None, [])));
  }
}
