/** Human agents in the loop (convex/chat/human.ts): a human may answer in the thread
    as the assistant, or the model may call the `askHuman` tool and a human's answer is
    then saved as that tool call's result. */
module Human {
  import opened Common
  import opened Store
  import Threads

  /** One tool call of a generation result; `input` holds its string arguments. */
  datatype ToolCall = ToolCall(toolCallId: string, toolName: string, dynamic: bool, input: map<string, string>)

  /** `{ toolCallId, question }`; the question is `undefined` when the input has none. */
  datatype SupportRequest = SupportRequest(toolCallId: string, question: Option<string>)

  /** `tc.toolName === "askHuman" && !tc.dynamic`. */
  predicate IsSupportCall(tc: ToolCall) {
    tc.toolName == "askHuman" && !tc.dynamic
  }

  /** `({ toolCallId, input: { question } }) => ({ toolCallId, question })`. */
  function RequestOf(tc: ToolCall): (q: SupportRequest)
    ensures q.toolCallId == tc.toolCallId
    ensures q.question.Some? <==> "question" in tc.input
    ensures q.question.Some? ==> q.question.value == tc.input["question"]
  {
    SupportRequest(tc.toolCallId, if "question" in tc.input then Some(tc.input["question"]) else None)
  }

  /** The support requests of a generation: one per `askHuman` call that is not dynamic,
      in the order of the calls. */
  function SupportRequests(calls: seq<ToolCall>): (r: seq<SupportRequest>)
    ensures |r| <= |calls|
    ensures forall c :: c in calls && IsSupportCall(c) ==> RequestOf(c) in r
    ensures forall q :: q in r ==> exists c :: c in calls && IsSupportCall(c) && q == RequestOf(c)
  {
    if calls == [] then []
    else (if IsSupportCall(calls[0]) then [RequestOf(calls[0])] else []) + SupportRequests(calls[1..])
  }

  /** The requests of two batches of calls are the requests of each, in order. */
  lemma {:induction false} SupportRequestsAppend(a: seq<ToolCall>, b: seq<ToolCall>)
    ensures SupportRequests(a + b) == SupportRequests(a) + SupportRequests(b)
  {
    if a == [] {
      assert a + b == b;
    } else {
      assert (a + b)[0] == a[0];
      assert (a + b)[1..] == a[1..] + b;
      SupportRequestsAppend(a[1..], b);
    }
  }

  /** The requests are the `filter` of the calls followed by the `map` of `RequestOf`. */
  lemma {:induction false} SupportRequestsIsFilterThenMap(calls: seq<ToolCall>)
    ensures |SupportRequests(calls)| == |Filter(calls, IsSupportCall)|
    ensures forall k :: 0 <= k < |SupportRequests(calls)| ==>
      SupportRequests(calls)[k] == RequestOf(Filter(calls, IsSupportCall)[k])
  {
    if calls != [] {
      var rest := calls[1..];
      SupportRequestsIsFilterThenMap(rest);
      var s, f := SupportRequests(calls), Filter(calls, IsSupportCall);
      var s', f' := SupportRequests(rest), Filter(rest, IsSupportCall);
      if IsSupportCall(calls[0]) {
        assert s == [RequestOf(calls[0])] + s';
        assert f == [calls[0]] + f';
        forall k | 0 <= k < |s| ensures s[k] == RequestOf(f[k]) {
          if k > 0 {
            assert s[k] == s'[k - 1] && f[k] == f'[k - 1];
          }
        }
      } else {
        assert s == s' && f == f';
      }
    }
  }

  /** What the model's generation returns to `ask`: its text, its tool calls and the id
      of the prompt message it saved. */
  datatype GenerationResult = GenerationResult(text: string, toolCalls: seq<ToolCall>, promptMessageId: Option<MessageId>)

  /** `{ response, supportRequests, promptMessageId }`. */
  datatype AskReply = AskReply(response: string, supportRequests: seq<SupportRequest>, promptMessageId: Option<MessageId>)

  /** `ask`: one generation for the question with the `askHuman` tool offered (no access
      check); the model's result is the parameter `result`. */
  method Ask(db: Db, question: string, threadId: string, result: GenerationResult) returns (reply: AskReply)
    requires db.Valid()
    modifies db
    ensures db.Valid()
    ensures Appended(db, [], [GenerateText(Generation(threadId, None, Some(question), None, ["askHuman"]))])
    ensures reply == AskReply(result.text, SupportRequests(result.toolCalls), result.promptMessageId)
  {
    db.Record(GenerateText(Generation(threadId, None, Some(question), None, ["askHuman"])));
    reply := AskReply(result.text, SupportRequests(result.toolCalls), result.promptMessageId);
  }

  /** `sendMessageFromHumanAgent`: one assistant message under the human agent's name,
      saved without an access check and without starting a generation. */
  method SendMessageFromHumanAgent(db: Db, agentName: string, message: string, threadId: string)
    returns (messageId: MessageId)
    requires db.Valid()
    modifies db
    ensures db.Valid()
    ensures messageId == |old(db.messages)|
    ensures Appended(db, [Message(threadId, MessageBody(Assistant, TextContent(message), None), Some(agentName), None)],
                     [MessageSaved(messageId)])
  {
    messageId := db.SaveMessage(Message(threadId, MessageBody(Assistant, TextContent(message), None), Some(agentName), None));
  }

  /** `sendMessageFromUser`: check access, then save the message as a user prompt. */
  method SendMessageFromUser(db: Db, message: string, threadId: string) returns (r: Outcome<Error>)
    requires db.Valid()
    modifies db
    ensures db.Valid()
    ensures r == old(Threads.AuthorizeThreadAccess(db, threadId, false))
    ensures r.Fail? ==> unchanged(db)
    ensures r.Pass? ==> Appended(db, [PromptMessage(threadId, message)], [MessageSaved(|old(db.messages)|)])
  {
    r := Threads.AuthorizeThreadAccess(db, threadId, false);
    if r.Fail? {
      return;
    }
    var _ := db.SaveMessage(PromptMessage(threadId, message));
  }

  /** The message that answers an `askHuman` call with a human's text response. */
  function HumanAnswer(humanName: string, response: string, toolCallId: string, threadId: string): (m: Message)
    ensures m.threadId == threadId && m.body.role == Tool && m.agentName.None?
    ensures m.body.content == PartsContent([ToolResultPart(toolCallId, "askHuman", response)])
    ensures m.provenance == Some(Provenance("human", humanName))
  {
    Message(threadId, MessageBody(Tool, PartsContent([ToolResultPart(toolCallId, "askHuman", response)]), None),
            None, Some(Provenance("human", humanName)))
  }

  /** `humanResponseAsToolCall`: save the human's answer as the tool result, then generate
      the continuation of the prompt message. */
  method HumanResponseAsToolCall(db: Db, humanName: string, response: string, toolCallId: string,
                                 threadId: string, promptMessageId: MessageId)
    requires db.Valid()
    modifies db
    ensures db.Valid()
    ensures Appended(db, [HumanAnswer(humanName, response, toolCallId, threadId)],
      [MessageSaved(|old(db.messages)|), GenerateText(Generation(threadId, Some(promptMessageId), None, None, []))])
  {
    var _ := db.SaveMessage(HumanAnswer(humanName, response, toolCallId, threadId));
    db.Record(GenerateText(Generation(threadId, Some(promptMessageId), None, None, [])));
  }

  /** `getMessages`: the thread's messages for any caller, with no access check. */
  function GetMessages(db: Db, threadId: string): (r: seq<Message>)
    reads db
    ensures forall m :: m in r <==> m in db.messages && m.threadId == threadId
  {
    db.MessagesOf(threadId)
  }
}
