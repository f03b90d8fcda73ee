/** The multi-user chat backend (convex/chat/multiUser.ts): callers name themselves with
    an optional demo-user id, threads are owned by the resolved id, and every thread
    operation first checks that the caller owns the thread. */
module MultiUser {
  import opened Common
  import opened Store
  import opened Users

  /** `getCurrentUserId`: the given id when it is a demo user's id, else the fallback id.
      The search of the user list is written as membership in the id set, which
      `FindUser` shows to be the same test. */
  function GetCurrentUserId(userId: Option<string>): (r: string)
    ensures r in DemoIds || r == DefaultUserId
    ensures userId.Some? && userId.value in DemoIds ==> r == userId.value
    ensures !(userId.Some? && userId.value in DemoIds) ==> r == DefaultUserId
  {
    if Truthy(userId) && userId.value in DemoIds then userId.value else DefaultUserId
  }

  /** Resolving an already resolved id changes nothing. */
  lemma GetCurrentUserIdIdempotent(userId: Option<string>)
    ensures GetCurrentUserId(Some(GetCurrentUserId(userId))) == GetCurrentUserId(userId)
  {
  }

  /** The message the ownership check builds inside the `try`. */
  function OwnershipError(currentUserId: string, threadUserId: string): string {
    "Unauthorized: User " + currentUserId + " cannot access thread belonging to " + threadUserId
  }

  /** The message the `catch` rethrows for every failure. */
  function AccessError(threadId: string): string {
    "Unauthorized thread access: " + threadId
  }

  /** The body of the `try`: the metadata lookup, then the ownership comparison. */
  function OwnershipCheck(db: Db, threadId: string, currentUserId: string): (r: Outcome<Error>)
    reads db
    ensures r.Fail? <==> (threadId !in db.threads ||
      (Truthy(db.threads[threadId].userId) && db.threads[threadId].userId.value != currentUserId))
  {
    match db.Metadata(threadId)
    case Err(e) => Fail(e)
    case Ok(meta) =>
      if Truthy(meta.userId) && meta.userId.value != currentUserId
      then Fail(Thrown(OwnershipError(currentUserId, meta.userId.value)))
      else Pass
  }

  /** `authorizeMultiUserThreadAccess`: whatever the `try` throws, the `catch` replaces it
      with the generic access error. */
  function AuthorizeMultiUserThreadAccess(db: Db, threadId: string, userId: Option<string>): (r: Outcome<Error>)
    reads db
    ensures r.Fail? <==> (threadId !in db.threads ||
      (Truthy(db.threads[threadId].userId) && db.threads[threadId].userId.value != GetCurrentUserId(userId)))
    ensures r.Fail? ==> r.error == Thrown(AccessError(threadId))
  {
    match OwnershipCheck(db, threadId, GetCurrentUserId(userId))
    case Pass => Pass
    case Fail(_) => Fail(Thrown(AccessError(threadId)))
  }

  /** The two messages differ at their thirteenth character (a space against a colon). */
  lemma AccessErrorIsNotOwnershipError(threadId: string, currentUserId: string, threadUserId: string)
    ensures AccessError(threadId) != OwnershipError(currentUserId, threadUserId)
  {
    assert AccessError(threadId)[12] == ' ';
    assert OwnershipError(currentUserId, threadUserId)[12] == ':';
  }

  /** The ownership message built in the `try` never reaches the caller. */
  lemma OwnershipErrorNeverEscapes(db: Db, threadId: string, userId: Option<string>, current: string, owner: string)
    ensures AuthorizeMultiUserThreadAccess(db, threadId, userId) != Fail(Thrown(OwnershipError(current, owner)))
  {
    AccessErrorIsNotOwnershipError(threadId, current, owner);
  }

  /** A thread with no stored owner (or an empty one) passes for every caller,
      although the comment beside the `catch` says it should not. */
  lemma OwnerlessThreadPasses(db: Db, threadId: string, userId: Option<string>)
    requires threadId in db.threads && !Truthy(db.threads[threadId].userId)
    ensures AuthorizeMultiUserThreadAccess(db, threadId, userId) == Pass
  {
  }

  /** A thread owned by a demo user is open to that user and to no other caller. */
  lemma OwnedThreadIsolation(db: Db, threadId: string, owner: string, userId: Option<string>)
    requires threadId in db.threads && db.threads[threadId].userId == Some(owner) && owner in DemoIds
    ensures AuthorizeMultiUserThreadAccess(db, threadId, userId).Pass? <==> userId == Some(owner)
  {
  }

  /** The system line `streamAsync` and `streamOneShot` send. */
  function ChatSystemLine(currentUserId: string): (r: string)
    ensures StartsWith(r, "You are chatting with ")
    ensures EndsWith(r, ". Keep responses concise and engaging.")
    ensures |r| == 60 + |currentUserId| && r[22..|r| - 38] == currentUserId
  {
    "You are chatting with " + currentUserId + ". Keep responses concise and engaging."
  }

  /** Different resolved callers get different system lines. */
  lemma ChatSystemLineInjective(a: string, b: string)
    requires ChatSystemLine(a) == ChatSystemLine(b)
    ensures a == b
  {
    var s := ChatSystemLine(a);
    assert a == s[22..|s| - 38];
  }

  /** The default thread title: `title || \`${name || currentUserId}'s Chat\``. */
  function ThreadTitleFor(title: Option<string>, currentUserId: string): (r: string)
    ensures Truthy(title) ==> r == title.value
    ensures !Truthy(title) ==> EndsWith(r, "'s Chat")
  {
    if Truthy(title) then title.value
    else
      var user := FindUser(currentUserId);
      (if user.Some? && user.value.name != "" then user.value.name else currentUserId) + "'s Chat"
  }

  /** Without a title, a demo user's thread is named after that user. */
  lemma DemoUserDefaultTitle(title: Option<string>, u: DemoUser)
    requires !Truthy(title) && u in DemoUsers
    ensures ThreadTitleFor(title, GetCurrentUserId(Some(u.id))) == u.name + "'s Chat"
  {
    FindUserOwnId(u);
    assert GetCurrentUserId(Some(u.id)) == u.id;
  }

  /** Without a title, any other caller's thread is named after the fallback id. */
  lemma UnknownCallerDefaultTitle(title: Option<string>, userId: string)
    requires !Truthy(title) && userId !in DemoIds
    ensures ThreadTitleFor(title, GetCurrentUserId(Some(userId))) == "default-user's Chat"
  {
    assert FindUser(DefaultUserId).None?;
  }

  /** `listUserThreads`: the threads stored under the resolved caller id. */
  function ListUserThreads(db: Db, userId: string): (r: set<ThreadId>)
    reads db
    ensures forall t :: t in r <==> t in db.threads && db.threads[t].userId == Some(GetCurrentUserId(Some(userId)))
  {
    db.ThreadsOf(Some(GetCurrentUserId(Some(userId))))
  }

  /** An unrecognised caller lists the fallback user's threads. */
  lemma UnknownCallerListsFallbackThreads(db: Db, userId: string)
    requires userId !in DemoIds
    ensures ListUserThreads(db, userId) == db.ThreadsOf(Some(DefaultUserId))
  {
  }

  /** Every thread a caller lists is one the same caller is authorised to open. */
  lemma ListedThreadsAreAccessible(db: Db, userId: string, t: ThreadId)
    requires t in ListUserThreads(db, userId)
    ensures AuthorizeMultiUserThreadAccess(db, t, Some(userId)) == Pass
  {
  }

  /** `listThreadMessages`: the thread's messages, after the ownership check. */
  function ListThreadMessages(db: Db, threadId: string, userId: Option<string>): (r: Result<seq<Message>, Error>)
    reads db
    ensures r.Ok? <==> AuthorizeMultiUserThreadAccess(db, threadId, userId).Pass?
    ensures r.Err? ==> r.error == Thrown(AccessError(threadId))
    ensures r.Ok? ==> forall m :: m in r.value <==> m in db.messages && m.threadId == threadId
  {
    match AuthorizeMultiUserThreadAccess(db, threadId, userId)
    case Fail(e) => Err(e)
    case Pass => Ok(db.MessagesOf(threadId))
  }

  /** `getThreadDetails`: the thread's title and summary, after the ownership check. */
  function GetThreadDetails(db: Db, threadId: string, userId: Option<string>): (r: Result<ThreadDetails, Error>)
    reads db
    ensures r.Ok? <==> AuthorizeMultiUserThreadAccess(db, threadId, userId).Pass?
    ensures r.Err? ==> r.error == Thrown(AccessError(threadId))
    ensures r.Ok? ==> (threadId in db.threads &&
      r.value == ThreadDetails(db.threads[threadId].title, db.threads[threadId].summary))
  {
    match AuthorizeMultiUserThreadAccess(db, threadId, userId)
    case Fail(e) => Err(e)
    case Pass =>
      // the second lookup finds the thread the check has just found
      var meta := db.threads[threadId];
      Ok(ThreadDetails(meta.title, meta.summary))
  }

  /** `initiateAsyncStreaming`: check ownership, save the prompt, then schedule
      `streamAsync` for the saved message with the caller's own `userId`. */
  method InitiateAsyncStreaming(db: Db, prompt: string, threadId: string, userId: Option<string>)
    returns (r: Outcome<Error>)
    requires db.Valid()
    modifies db
    ensures db.Valid()
    ensures r == old(AuthorizeMultiUserThreadAccess(db, threadId, userId))
    ensures r.Fail? ==> unchanged(db)
    ensures r.Pass? ==> Appended(db, [PromptMessage(threadId, prompt)],
      [MessageSaved(|old(db.messages)|),
       Scheduled(MultiUserStreamAsync(threadId, |old(db.messages)|, userId))])
  {
    r := AuthorizeMultiUserThreadAccess(db, threadId, userId);
    if r.Fail? {
      return;
    }
    var messageId := db.SaveMessage(PromptMessage(threadId, prompt));
    db.Record(Scheduled(MultiUserStreamAsync(threadId, messageId, userId)));
  }

  /** `streamAsync`: answer the saved message with the resolved caller named in the system line. */
  method StreamAsync(db: Db, promptMessageId: MessageId, threadId: string, userId: Option<string>)
    requires db.Valid()
    modifies db
    ensures db.Valid()
    ensures Appended(db, [], [StreamText(Generation(threadId, Some(promptMessageId), None, Some(ChatSystemLine(GetCurrentUserId(userId))), []))])
  {
    db.Record(StreamText(Generation(threadId, Some(promptMessageId), None, Some(ChatSystemLine(GetCurrentUserId(userId))), [])));
  }

  /** `createUserThread`: a new thread owned by the resolved caller, titled by `ThreadTitleFor`. */
  method CreateUserThread(db: Db, title: Option<string>, userId: string) returns (threadId: ThreadId)
    requires db.Valid()
    modifies db
    ensures db.Valid()
    ensures threadId !in old(db.threads)
    ensures db.threads == old(db.threads)[threadId := ThreadMeta(
      Some(GetCurrentUserId(Some(userId))), Some(ThreadTitleFor(title, GetCurrentUserId(Some(userId)))), None)]
    ensures db.messages == old(db.messages) && db.streams == old(db.streams)
    ensures db.effects == old(db.effects) + [ThreadCreated(threadId)]
    ensures db.authUserId == old(db.authUserId) && db.roleTemplates == old(db.roleTemplates)
    ensures db.issued == old(db.issued) + 1
  {
    var currentUserId := GetCurrentUserId(Some(userId));
    threadId := db.CreateThread(Some(currentUserId), Some(ThreadTitleFor(title, currentUserId)));
  }

  /** The generation `streamOneShot` asks for: the prompt itself, under the system line
      that names the resolved caller. */
  function OneShotGeneration(threadId: string, prompt: string, userId: Option<string>): Generation {
    Generation(threadId, None, Some(prompt), Some(ChatSystemLine(GetCurrentUserId(userId))), [])
  }

  /** `streamOneShot`: check ownership, then stream a reply to `prompt` directly. */
  method StreamOneShot(db: Db, prompt: string, threadId: string, userId: Option<string>)
    returns (r: Outcome<Error>)
    requires db.Valid()
    modifies db
    ensures db.Valid()
    ensures r == old(AuthorizeMultiUserThreadAccess(db, threadId, userId))
    ensures r.Fail? ==> unchanged(db)
    ensures r.Pass? ==> Appended(db, [], [StreamText(OneShotGeneration(threadId, prompt, userId))])
  {
    r := AuthorizeMultiUserThreadAccess(db, threadId, userId);
    if r.Fail? {
      return;
    }
    db.Record(StreamText(OneShotGeneration(threadId, prompt, userId)));
  }
}
