/** The agent library and hosted platform that every backend handler calls into,
    reduced to a store of threads, messages and streams plus an ordered record of
    the calls that have effects outside the store (scheduling, model invocations,
    abort requests, console lines). The model relies only on the contracts below for the
    library; what it does inside (persistence, pagination, delta streaming,
    generation) is not modelled. */
module Store {
  import opened Common

  /** Thread ids are non-empty opaque strings issued by the thread store. */
  type ThreadId = s: string | |s| > 0 witness "t"

  /** Message ids are opaque; here the position of the message in the store. */
  type MessageId = nat

  type StreamId = nat

  datatype Error =
    | Thrown(message: string)        // an `Error` thrown by this repository's own code
    | LibraryFailure(op: string)     // a failure inside a library call, by operation name

  /** What `getThreadMetadata` returns: the stored owner, title and summary. */
  datatype ThreadMeta = ThreadMeta(userId: Option<string>, title: Option<string>, summary: Option<string>)

  datatype Role = User | Assistant | Tool

  /** A `tool-result` content part whose output is `{ type: "text", value }`. */
  datatype ToolResultPart = ToolResultPart(toolCallId: string, toolName: string, outputText: string)

  datatype Content = TextContent(text: string) | PartsContent(parts: seq<ToolResultPart>)

  /** The `message` object handed to `saveMessage`. */
  datatype MessageBody = MessageBody(role: Role, content: Content, toolCallId: Option<string>)

  /** `metadata: { provider, providerMetadata: { human: { name } } }`. */
  datatype Provenance = Provenance(provider: string, humanName: string)

  datatype Message = Message(threadId: string, body: MessageBody, agentName: Option<string>, provenance: Option<Provenance>)

  /** `{ prompt }` is the library's shorthand for a user message with that text. */
  function PromptMessage(threadId: string, prompt: string): Message {
    Message(threadId, MessageBody(User, TextContent(prompt), None), None, None)
  }

  datatype StreamState = Streaming | Finished | Aborted(reason: string)

  datatype StreamRec = StreamRec(streamId: StreamId, threadId: string, order: int, state: StreamState)

  datatype AbortTarget = ByOrder(threadId: string, order: int) | ById(streamId: StreamId)

  /** The internal functions handlers put on the scheduler queue (`runAfter(0, ...)`). */
  datatype ScheduledCall =
    | MultiUserStreamAsync(threadId: string, promptMessageId: MessageId, userId: Option<string>)
    | SystemPromptsStreamAsync(threadId: string, promptMessageId: MessageId,
                               selectedRole: Option<string>, customPrompt: Option<string>)
    | ProcessMessage(threadId: string, promptMessageId: MessageId)
    | ContinueAfterConfirmation(threadId: string, confirmed: bool)

  /** The options of one `streamText`/`generateText` call that this repository chooses:
      which message to answer or which prompt to send, the `system` override, if any, and
      the names of the tools the call itself offers (beyond the agent's own). */
  datatype Generation = Generation(threadId: string, promptMessageId: Option<MessageId>,
                                   prompt: Option<string>, system: Option<string>, tools: seq<string>)

  /** One library call with an effect, in the order handlers issue them. */
  datatype Effect =
    | ThreadCreated(newThreadId: ThreadId)
    | MessageSaved(messageId: MessageId)
    | Scheduled(call: ScheduledCall)
    | StreamText(gen: Generation)
    | GenerateText(gen: Generation)
    // `savesMessages` is false for `storageOptions: { saveMessages: "none" }`
    | GenerateObject(threadId: string, prompt: string, savesMessages: bool)
    | AbortRequested(target: AbortTarget, reason: string)
    | ThreadPatched(threadId: string)
    | Logged(line: string)

  /** A stream matches an abort request when it is addressed by it. */
  predicate Addressed(s: StreamRec, target: AbortTarget) {
    match target
    case ByOrder(t, o) => s.threadId == t && s.order == o
    case ById(id) => s.streamId == id
  }

  /** Whether an abort request finds a stream that is still streaming. */
  predicate HasLiveMatch(streams: seq<StreamRec>, target: AbortTarget) {
    exists k :: 0 <= k < |streams| && Addressed(streams[k], target) && streams[k].state.Streaming?
  }

  /** The stream table after an abort: every live stream the request addresses
      is aborted with the reason; nothing else changes. */
  function AbortMatching(streams: seq<StreamRec>, target: AbortTarget, reason: string): (r: seq<StreamRec>)
    ensures |r| == |streams|
    ensures forall k :: 0 <= k < |r| ==> r[k].streamId == streams[k].streamId && r[k].threadId == streams[k].threadId && r[k].order == streams[k].order
    ensures forall k :: 0 <= k < |r| ==>
      r[k].state == (if Addressed(streams[k], target) && streams[k].state.Streaming? then Aborted(reason) else streams[k].state)
  {
    seq(|streams|, k requires 0 <= k < |streams| =>
      if Addressed(streams[k], target) && streams[k].state.Streaming? then streams[k].(state := Aborted(reason)) else streams[k])
  }

  /** After an abort, the same request finds nothing left to abort. */
  lemma AbortLeavesNoLiveMatch(streams: seq<StreamRec>, target: AbortTarget, reason: string)
    ensures !HasLiveMatch(AbortMatching(streams, target, reason), target)
  {
    var r := AbortMatching(streams, target, reason);
    forall k | 0 <= k < |r| && Addressed(r[k], target) ensures !r[k].state.Streaming? {
      assert Addressed(streams[k], target);
    }
  }

  /** The library's thread, message and stream store, and the record of effects. */
  class Db {
    var threads: map<ThreadId, ThreadMeta>
    var messages: seq<Message>
    var streams: seq<StreamRec>
    var effects: seq<Effect>
    /** What `getAuthUserId` (convex/utils, not part of this model) returns for the caller. */
    var authUserId: Option<string>
    /** `ROLE_TEMPLATES` (convex/agents/systemPromptsDemo, not part of this model). */
    var roleTemplates: map<string, RoleTemplate>
    /** How many thread ids the store has issued; every id is at most this long. */
    var issued: nat

    ghost predicate Valid()
      reads this
    {
      forall k :: k in threads ==> |k| <= issued
    }

    constructor (authUserId: Option<string>, roleTemplates: map<string, RoleTemplate>)
      ensures Valid()
      ensures threads == map[] && messages == [] && streams == [] && effects == []
      ensures this.authUserId == authUserId && this.roleTemplates == roleTemplates
    {
      threads, messages, streams, effects := map[], [], [], [];
      this.authUserId, this.roleTemplates := authUserId, roleTemplates;
      issued := 0;
    }

    /** `getThreadMetadata`: the stored record, or a library failure for an unknown thread. */
    function Metadata(threadId: string): (r: Result<ThreadMeta, Error>)
      reads this
      ensures r.Ok? <==> threadId in threads
      ensures r.Ok? ==> r.value == threads[threadId]
      ensures r.Err? ==> r.error == LibraryFailure("getThreadMetadata")
    {
      if threadId in threads then Ok(threads[threadId]) else Err(LibraryFailure("getThreadMetadata"))
    }

    /** `listThreadsByUserId`: the threads whose stored owner is the given user id. */
    function ThreadsOf(userId: Option<string>): (r: set<ThreadId>)
      reads this
      ensures forall t :: t in r <==> t in threads && threads[t].userId == userId
    {
      set t | t in threads && threads[t].userId == userId
    }

    /** `listMessages`: the thread's messages in the order they were saved. */
    function MessagesOf(threadId: string): (r: seq<Message>)
      reads this
      ensures forall m :: m in r <==> m in messages && m.threadId == threadId
    {
      Filter(messages, (m: Message) => m.threadId == threadId)
    }

    /** `listStreams`: the thread's streams that are still streaming, in table order. */
    function ListStreams(threadId: string): (r: seq<StreamRec>)
      reads this
      ensures forall s :: s in r <==> s in streams && s.threadId == threadId && s.state.Streaming?
    {
      Filter(streams, (s: StreamRec) => s.threadId == threadId && s.state.Streaming?)
    }

    /** `createThread`: a fresh id owned by `userId`, with the given title. */
    method CreateThread(userId: Option<string>, title: Option<string>) returns (id: ThreadId)
      requires Valid()
      modifies this
      ensures Valid()
      ensures id !in old(threads) && issued == old(issued) + 1
      ensures threads == old(threads)[id := ThreadMeta(userId, title, None)]
      ensures messages == old(messages) && streams == old(streams)
      ensures effects == old(effects) + [ThreadCreated(id)]
      ensures authUserId == old(authUserId) && roleTemplates == old(roleTemplates)
    {
      id := seq(issued + 1, _ => 't');
      issued := issued + 1;
      threads := threads[id := ThreadMeta(userId, title, None)];
      effects := effects + [ThreadCreated(id)];
    }

    /** `saveMessage`: appends the message and returns its id. */
    method SaveMessage(m: Message) returns (id: MessageId)
      requires Valid()
      modifies this
      ensures Valid()
      ensures id == |old(messages)| && messages == old(messages) + [m]
      ensures threads == old(threads) && issued == old(issued) && streams == old(streams)
      ensures effects == old(effects) + [MessageSaved(id)]
      ensures authUserId == old(authUserId) && roleTemplates == old(roleTemplates)
    {
      id := |messages|;
      messages := messages + [m];
      effects := effects + [MessageSaved(id)];
    }

    /** Records a call with no effect on the store: a schedule, a model call or a console line. */
    method Record(e: Effect)
      requires Valid()
      requires e.Scheduled? || e.StreamText? || e.GenerateText? || e.GenerateObject? || e.Logged?
      modifies this
      ensures Valid()
      ensures threads == old(threads) && issued == old(issued)
      ensures messages == old(messages) && streams == old(streams)
      ensures effects == old(effects) + [e]
      ensures authUserId == old(authUserId) && roleTemplates == old(roleTemplates)
    {
      effects := effects + [e];
    }

    /** `abortStream`: aborts the live streams the request addresses; true when there was one. */
    method AbortStream(target: AbortTarget, reason: string) returns (found: bool)
      requires Valid()
      modifies this
      ensures Valid()
      ensures found == HasLiveMatch(old(streams), target)
      ensures streams == AbortMatching(old(streams), target, reason)
      ensures threads == old(threads) && issued == old(issued) && messages == old(messages)
      ensures effects == old(effects) + [AbortRequested(target, reason)]
      ensures authUserId == old(authUserId) && roleTemplates == old(roleTemplates)
    {
      found := HasLiveMatch(streams, target);
      streams := AbortMatching(streams, target, reason);
      effects := effects + [AbortRequested(target, reason)];
    }

    /** `threads.updateThread` / `thread.updateMetadata`: replaces the title (and the summary,
        when one is given) of an existing thread; fails for an unknown thread. */
    method PatchThread(threadId: string, title: string, summary: Option<string>) returns (r: Outcome<Error>)
      requires Valid()
      modifies this
      ensures Valid()
      ensures r.Pass? <==> threadId in old(threads)
      ensures r.Fail? ==> r.error == LibraryFailure("updateThread") && unchanged(this)
      ensures r.Pass? ==> threads == old(threads)[threadId := old(threads)[threadId].(
                title := Some(title),
                summary := if summary.Some? then summary else old(threads)[threadId].summary)]
      ensures r.Pass? ==> effects == old(effects) + [ThreadPatched(threadId)]
      ensures issued == old(issued) && messages == old(messages) && streams == old(streams)
      ensures authUserId == old(authUserId) && roleTemplates == old(roleTemplates)
    {
      if threadId in threads {
        var meta := threads[threadId];
        threads := threads[threadId := meta.(title := Some(title),
                                             summary := if summary.Some? then summary else meta.summary)];
        effects := effects + [ThreadPatched(threadId)];
        r := Pass;
      } else {
        r := Fail(LibraryFailure("updateThread"));
      }
    }
  }

  /** A handler's whole effect on the store: exactly these messages were saved and these
      effects issued, in this order; threads, streams and the caller context are unchanged. */
  twostate predicate Appended(db: Db, newMessages: seq<Message>, newEffects: seq<Effect>)
    reads db
  {
    db.threads == old(db.threads) && db.issued == old(db.issued) &&
    db.messages == old(db.messages) + newMessages && db.streams == old(db.streams) &&
    db.effects == old(db.effects) + newEffects &&
    db.authUserId == old(db.authUserId) && db.roleTemplates == old(db.roleTemplates)
  }

  /** What a handler that only patches threads or aborts streams leaves alone: the
      caller's signed-in user, the role templates and the thread ids issued so far. */
  twostate predicate Unmoved(db: Db)
    reads db
  {
    db.issued == old(db.issued) && db.authUserId == old(db.authUserId) &&
    db.roleTemplates == old(db.roleTemplates)
  }

  /** The `{ title, summary }` that the `getThreadDetails` queries return. */
  datatype ThreadDetails = ThreadDetails(title: Option<string>, summary: Option<string>)

  /** One entry of `ROLE_TEMPLATES`. */
  datatype RoleTemplate = RoleTemplate(name: string, description: string, prompt: string)
}
