/** The thread helpers of convex/threads.ts: the authenticated user's threads, thread
    creation, details and the generated-title action, behind `authorizeThreadAccess`. */
module Threads {
  import opened Common
  import opened Store

  const UserRequired: string := "Unauthorized: user is required"
  const UserMismatch: string := "Unauthorized: user does not match thread user"

  /** `authorizeThreadAccess(ctx, threadId, requireUser)`; an omitted `requireUser` is `false`. */
  function AuthorizeThreadAccess(db: Db, threadId: string, requireUser: bool): (r: Outcome<Error>)
    reads db
    // without requireUser only the metadata lookup can fail
    ensures !requireUser ==> (r.Pass? <==> threadId in db.threads)
    ensures !requireUser && r.Fail? ==> r.error == LibraryFailure("getThreadMetadata")
    // with requireUser and no signed-in user, this error wins over any lookup failure
    ensures requireUser && !Truthy(db.authUserId) ==> r == Fail(Thrown(UserRequired))
    ensures requireUser && Truthy(db.authUserId) && threadId !in db.threads ==>
      r == Fail(LibraryFailure("getThreadMetadata"))
    // with requireUser the caller must be the stored owner; an owner-less thread is refused
    ensures requireUser && Truthy(db.authUserId) && threadId in db.threads ==>
      r == (if db.threads[threadId].userId == db.authUserId then Pass else Fail(Thrown(UserMismatch)))
  {
    if requireUser && !Truthy(db.authUserId) then Fail(Thrown(UserRequired))
    else
      match db.Metadata(threadId)
      case Err(e) => Fail(e)
      case Ok(meta) =>
        if requireUser && meta.userId != db.authUserId then Fail(Thrown(UserMismatch)) else Pass
  }

  /** As every handler in this repository calls it, the check admits any caller to any
      existing thread, whoever owns it and whether or not anyone is signed in. */
  lemma DefaultAccessIgnoresOwner(db: Db, threadId: string)
    requires threadId in db.threads
    ensures AuthorizeThreadAccess(db, threadId, false) == Pass
  {
  }

  /** With `requireUser`, a thread passes exactly for its signed-in owner. */
  lemma RequiredAccessIsOwnerOnly(db: Db, threadId: string)
    ensures AuthorizeThreadAccess(db, threadId, true).Pass? <==>
      (Truthy(db.authUserId) && threadId in db.threads && db.threads[threadId].userId == db.authUserId)
  {
  }

  /** `listThreads`: the threads stored under the signed-in user id (or under no user). */
  function ListThreads(db: Db): (r: set<ThreadId>)
    reads db
    ensures forall t :: t in r <==> t in db.threads && db.threads[t].userId == db.authUserId
  {
    db.ThreadsOf(db.authUserId)
  }

  /** `getThreadDetails`: the title and summary of a thread the check admits. */
  function GetThreadDetails(db: Db, threadId: string): (r: Result<ThreadDetails, Error>)
    reads db
    ensures r.Ok? <==> threadId in db.threads
    ensures r.Err? ==> r.error == LibraryFailure("getThreadMetadata")
    ensures r.Ok? ==> r.value == ThreadDetails(db.threads[threadId].title, db.threads[threadId].summary)
  {
    match AuthorizeThreadAccess(db, threadId, false)
    case Fail(e) => Err(e)
    case Pass =>
      // the second lookup finds the thread the check has just found
      var meta := db.threads[threadId];
      Ok(ThreadDetails(meta.title, meta.summary))
  }

  /** `createNewThread`: one thread owned by the signed-in user, then the initial message
      (when there is one) saved into it; returns the new thread id. */
  method CreateNewThread(db: Db, title: Option<string>, initialMessage: Option<MessageBody>)
    returns (threadId: ThreadId)
    requires db.Valid()
    modifies db
    ensures db.Valid()
    ensures threadId !in old(db.threads)
    ensures db.threads == old(db.threads)[threadId := ThreadMeta(old(db.authUserId), title, None)]
    ensures initialMessage.None? ==>
      db.messages == old(db.messages) && db.effects == old(db.effects) + [ThreadCreated(threadId)]
    ensures initialMessage.Some? ==>
      db.messages == old(db.messages) + [Message(threadId, initialMessage.value, None, None)] &&
      db.effects == old(db.effects) + [ThreadCreated(threadId), MessageSaved(|old(db.messages)|)]
    ensures db.streams == old(db.streams)
    ensures db.authUserId == old(db.authUserId) && db.roleTemplates == old(db.roleTemplates)
  {
    threadId := db.CreateThread(db.authUserId, title);
    if initialMessage.Some? {
      var _ := db.SaveMessage(Message(threadId, initialMessage.value, None, None));
    }
  }

  /** The prompt `updateThreadTitle` sends with its object generation. */
  const TitlePrompt: string := "Generate a title and summary for this thread."

  /** The `{ title, summary }` object the model generates for the thread. */
  datatype GeneratedTitle = GeneratedTitle(title: string, summary: string)

  /** The `updateThreadTitle` action: check access, ask the model for a title and a summary
      with `TitlePrompt`, saving no messages (the model's answer is the parameter
      `generated`), then store both on the thread. */
  method UpdateThreadTitle(db: Db, threadId: string, generated: GeneratedTitle) returns (r: Outcome<Error>)
    requires db.Valid()
    modifies db
    ensures db.Valid()
    ensures r == old(AuthorizeThreadAccess(db, threadId, false))
    ensures r.Fail? ==> unchanged(db)
    ensures r.Pass? ==> (threadId in old(db.threads) &&
      db.threads == old(db.threads)[threadId := old(db.threads)[threadId].(
        title := Some(generated.title), summary := Some(generated.summary))])
    ensures r.Pass? ==> db.effects == old(db.effects) + [GenerateObject(threadId, TitlePrompt, false), ThreadPatched(threadId)]
    ensures db.messages == old(db.messages) && db.streams == old(db.streams) && Unmoved(db)
  {
    r := AuthorizeThreadAccess(db, threadId, false);
    if r.Fail? {
      return;
    }
    db.Record(GenerateObject(threadId, TitlePrompt, false));
    r := db.PatchThread(threadId, generated.title, Some(generated.summary));
  }
}
