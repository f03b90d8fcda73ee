/** The multi-user page (components/chat/chat-multi-user.tsx): the current demo user,
    kept in local storage, the user selector, the open thread kept in the URL fragment,
    and the user id the page's backend calls carry. */
module MultiUserUI {
  import opened Common
  import opened Store
  import opened Users
  import opened HashRoute
  import opened Composer
  import MultiUser

  const StorageKey: string := "multiuser-demo-current-user"
  const OpeningPrompt: string := "你好！我想和你聊天。"

  /** `getCurrentUserFromStorage`: the demo user whose id is stored, else the first demo
      user (also when there is no window to read storage from). */
  function UserFromStorage(storage: map<string, string>, hasWindow: bool): (u: DemoUser)
    ensures u in DemoUsers
    ensures !hasWindow ==> u == DemoUsers[0]
    ensures hasWindow && StorageKey in storage && storage[StorageKey] in DemoIds ==> u.id == storage[StorageKey]
    ensures hasWindow && !(StorageKey in storage && storage[StorageKey] in DemoIds) ==> u == DemoUsers[0]
  {
    if !hasWindow then DemoUsers[0]
    else if StorageKey in storage && storage[StorageKey] != "" then
      match FindUser(storage[StorageKey])
      case Some(user) => user
      case None => DemoUsers[0]
    else DemoUsers[0]
  }

  /** Storing a demo user's id and reading the storage back yields that user. */
  lemma StorageRoundTrip(storage: map<string, string>, u: DemoUser)
    requires u in DemoUsers
    ensures UserFromStorage(storage[StorageKey := u.id], true) == u
  {
    FindUserOwnId(u);
  }

  /** The title the "new thread" button asks for. */
  function NewThreadTitle(u: DemoUser): (r: string)
    ensures StartsWith(r, u.name) && EndsWith(r, " 的新对话")
  {
    u.name + " 的新对话"
  }

  /** The title the reset button asks for. */
  function ResetThreadTitle(u: DemoUser): (r: string)
    ensures StartsWith(r, "Multi-User Chat - ") && EndsWith(r, u.name)
  {
    "Multi-User Chat - " + u.name
  }

  /** What the page hands to `initiateAsyncStreaming`. */
  datatype SendArgs = SendArgs(threadId: string, prompt: string, userId: string)

  class MultiUserPage {
    const hasWindow: bool
    const box: PromptBox
    var storage: map<string, string>
    var currentUser: DemoUser
    var hash: string
    var threadId: Option<string>

    ghost predicate Valid()
      reads this
    {
      currentUser in DemoUsers
    }

    /** The page's first render: the stored user, and the thread named by the fragment. */
    constructor (storage: map<string, string>, hasWindow: bool, hash: string)
      ensures Valid()
      ensures this.hasWindow == hasWindow && this.storage == storage && this.hash == hash
      ensures currentUser == UserFromStorage(storage, hasWindow)
      ensures threadId == (if hasWindow then ThreadIdFromHash(hash) else None)
      ensures fresh(box) && box.prompt == OpeningPrompt && box.initial == OpeningPrompt
      ensures box.afterSend == "" && !box.trimOnSend
    {
      this.hasWindow, this.storage, this.hash := hasWindow, storage, hash;
      currentUser := UserFromStorage(storage, hasWindow);
      threadId := if hasWindow then ThreadIdFromHash(hash) else None;
      box := new PromptBox(OpeningPrompt, "", false);
    }

    /** `setCurrentUserInStorage`: nothing happens without a window. */
    method SetCurrentUserInStorage(userId: string)
      modifies this
      ensures storage == (if hasWindow then old(storage)[StorageKey := userId] else old(storage))
      ensures currentUser == old(currentUser) && hash == old(hash) && threadId == old(threadId)
    {
      if hasWindow {
        storage := storage[StorageKey := userId];
      }
    }

    /** `switchUser`: the new user becomes current and is stored, and the open thread is
        closed (the fragment is cleared). */
    method SwitchUser(newUser: DemoUser)
      requires newUser in DemoUsers
      modifies this
      ensures Valid()
      ensures currentUser == newUser
      ensures storage == (if hasWindow then old(storage)[StorageKey := newUser.id] else old(storage))
      ensures hash == "" && threadId == None
    {
      currentUser := newUser;
      SetCurrentUserInStorage(newUser.id);
      hash := HashAfterAssign("");
      threadId := None;
    }

    /** The selector's `onChange`: an id that is not a demo user's changes nothing. */
    method OnUserSelected(value: string)
      requires Valid()
      modifies this
      ensures Valid()
      ensures value in DemoIds ==> currentUser.id == value && hash == "" && threadId == None
      ensures value in DemoIds ==>
        storage == (if hasWindow then old(storage)[StorageKey := value] else old(storage))
      ensures value !in DemoIds ==>
        currentUser == old(currentUser) && storage == old(storage) && hash == old(hash) && threadId == old(threadId)
    {
      var newUser := FindUser(value);
      if newUser.Some? {
        SwitchUser(newUser.value);
      }
    }

    /** After a switch with a window, reloading the page brings back the same user. */
    method SwitchSurvivesReload(newUser: DemoUser) returns (reloaded: DemoUser)
      requires newUser in DemoUsers && hasWindow
      modifies this
      ensures reloaded == newUser && currentUser == newUser
    {
      SwitchUser(newUser);
      StorageRoundTrip(old(storage), newUser);
      reloaded := UserFromStorage(storage, hasWindow);
    }

    /** The `hashchange` listener. */
    method OnHashChange()
      modifies this
      ensures threadId == ThreadIdFromHash(hash)
      ensures currentUser == old(currentUser) && storage == old(storage) && hash == old(hash)
    {
      threadId := ThreadIdFromHash(hash);
    }

    /** Opening a thread: from the thread list, or once a new thread has been created. */
    method OpenThread(id: ThreadId)
      modifies this
      ensures hash == HashAfterAssign(id) && threadId == Some(id)
      ensures currentUser == old(currentUser) && storage == old(storage)
    {
      hash := HashAfterAssign(id);
      threadId := Some(id);
    }

    /** With no thread open and a non-empty list, the first listed thread is opened;
        otherwise nothing changes. */
    method AutoSelectLatest(threads: seq<ThreadId>)
      modifies this
      ensures !Truthy(old(threadId)) && |threads| > 0 ==> threadId == Some(threads[0]) && hash == HashAfterAssign(threads[0])
      ensures !(!Truthy(old(threadId)) && |threads| > 0) ==> threadId == old(threadId) && hash == old(hash)
      ensures currentUser == old(currentUser) && storage == old(storage)
    {
      if !Truthy(threadId) && |threads| > 0 {
        OpenThread(threads[0]);
      }
    }

    /** The `userId` the page sends: it names the current demo user, so the backend keeps
        it and never falls back to "default-user". */
    function UserIdArg(): (r: string)
      requires Valid()
      reads this
      ensures FindUser(r) == Some(currentUser)
      ensures MultiUser.GetCurrentUserId(Some(r)) == r && r != DefaultUserId
    {
      FindUserOwnId(currentUser);
      currentUser.id
    }

    /** The thread list the page shows is exactly the current user's own threads. */
    lemma ListsOnlyOwnThreads(db: Db)
      requires Valid()
      ensures forall t :: t in MultiUser.ListUserThreads(db, UserIdArg()) <==>
        t in db.threads && db.threads[t].userId == Some(currentUser.id)
    {
    }

    /** The details query of the open thread (skipped when none is open): it succeeds
        exactly for a thread that is the current user's own or has no owner. */
    function OpenThreadDetails(db: Db): (r: Option<Result<ThreadDetails, Error>>)
      requires Valid()
      reads this, db
      ensures r.None? <==> !Truthy(threadId)
      ensures r.Some? ==> (r.value.Ok? <==> (threadId.value in db.threads &&
        (!Truthy(db.threads[threadId.value].userId) || db.threads[threadId.value].userId == Some(currentUser.id))))
    {
      if Truthy(threadId) then Some(MultiUser.GetThreadDetails(db, threadId.value, Some(UserIdArg()))) else None
    }

    /** The "new thread" (`reset` false) and reset (`reset` true) callbacks: a thread owned by
        the current user, under the page's title for it, is created and then opened. */
    method OnCreateThread(db: Db, reset: bool) returns (id: ThreadId)
      requires Valid() && db.Valid()
      modifies this, db
      ensures Valid() && db.Valid()
      ensures id !in old(db.threads)
      ensures db.threads == old(db.threads)[id := ThreadMeta(Some(currentUser.id),
        Some(if reset then ResetThreadTitle(currentUser) else NewThreadTitle(currentUser)), None)]
      ensures db.messages == old(db.messages) && db.streams == old(db.streams)
      ensures db.effects == old(db.effects) + [ThreadCreated(id)]
      ensures db.authUserId == old(db.authUserId) && db.roleTemplates == old(db.roleTemplates)
      ensures db.issued == old(db.issued) + 1
      ensures threadId == Some(id) && hash == HashAfterAssign(id)
      ensures currentUser == old(currentUser) && storage == old(storage)
    {
      var title := if reset then ResetThreadTitle(currentUser) else NewThreadTitle(currentUser);
      id := MultiUser.CreateUserThread(db, Some(title), UserIdArg());
      OpenThread(id);
    }

    /** `onSendClicked`: a blank prompt sends nothing; otherwise the prompt goes out with
        the open thread and the current user's id, and the box is cleared. */
    method OnSendClicked(openThread: string) returns (sent: Option<SendArgs>)
      requires Valid()
      requires box.afterSend == "" && !box.trimOnSend
      modifies box
      ensures AllSpace(old(box.prompt)) ==> sent.None? && box.prompt == old(box.prompt)
      ensures !AllSpace(old(box.prompt)) ==>
        sent == Some(SendArgs(openThread, old(box.prompt), currentUser.id)) && box.prompt == ""
    {
      var s := box.Send();
      match s
      case None => sent := None;
      case Some(sub) => sent := Some(SendArgs(openThread, sub.text, UserIdArg()));
    }
  }
}
