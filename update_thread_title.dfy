/** The `updateThreadTitle` tool (convex/tools/updateThreadTitle.ts) the model may call to
    rename the thread it is running in. */
module UpdateThreadTitle {
  import opened Common
  import opened Store

  const Missing: string := "missing or invalid threadId"
  const Updated: string := "updated"
  const MissingWarning: string := "updateThreadTitle called without a threadId"

  /** The tool's `handler`; `ctxThreadId` is the thread the tool runs in, if any. Without
      one it warns and answers `Missing`; otherwise only that thread's title changes and it
      answers `Updated`, unless the store refuses the patch. */
  method Handler(db: Db, ctxThreadId: Option<string>, title: string) returns (r: Result<string, Error>)
    requires db.Valid()
    modifies db
    ensures db.Valid()
    ensures !Truthy(ctxThreadId) ==> r == Ok(Missing) && Appended(db, [], [Logged(MissingWarning)])
    ensures Truthy(ctxThreadId) && ctxThreadId.value !in old(db.threads) ==>
      r == Err(LibraryFailure("updateThread")) && unchanged(db)
    ensures Truthy(ctxThreadId) && ctxThreadId.value in old(db.threads) ==>
      r == Ok(Updated) &&
      db.threads == old(db.threads)[ctxThreadId.value := old(db.threads)[ctxThreadId.value].(title := Some(title))] &&
      db.effects == old(db.effects) + [ThreadPatched(ctxThreadId.value)]
    ensures db.messages == old(db.messages) && db.streams == old(db.streams) && Unmoved(db)
  {
    if !Truthy(ctxThreadId) {
      db.Record(Logged(MissingWarning));
      return Ok(Missing);
    }
    var patched := db.PatchThread(ctxThreadId.value, title, None);
    if patched.Fail? {
      return Err(patched.error);
    }
    r := Ok(Updated);
  }
}
