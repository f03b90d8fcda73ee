/** The system-prompt demo backend (convex/chat/systemPrompts.ts): a message is sent
    together with an optional role key and an optional custom prompt, and the reply is
    generated with the system prompt those choose. */
module SystemPrompts {
  import opened Common
  import opened Store
  import Threads

  /** Whether a role key names a template of the table. */
  predicate KnownRole(selectedRole: Option<string>, templates: map<string, RoleTemplate>) {
    Truthy(selectedRole) && selectedRole.value in templates
  }

  /** The `system` option `streamAsync` passes (`None`: the option is left out and the
      agent's own instructions apply): a custom prompt first, then the role's template. */
  function SystemPromptFor(customPrompt: Option<string>, selectedRole: Option<string>,
                           templates: map<string, RoleTemplate>): (r: Option<string>)
    ensures Truthy(customPrompt) ==> r == customPrompt
    ensures (!Truthy(customPrompt) && KnownRole(selectedRole, templates) &&
             templates[selectedRole.value].prompt != "") ==> r == Some(templates[selectedRole.value].prompt)
    ensures r.None? <==> (!Truthy(customPrompt) &&
      !(KnownRole(selectedRole, templates) && templates[selectedRole.value].prompt != ""))
    ensures r.Some? ==> r.value != ""
  {
    var systemPrompt :=
      if Truthy(customPrompt) then customPrompt
      else if KnownRole(selectedRole, templates) then Some(templates[selectedRole.value].prompt)
      else None;
    if Truthy(systemPrompt) then systemPrompt else None
  }

  /** A custom prompt wins whatever role is selected. */
  lemma CustomPromptWins(customPrompt: string, selectedRole: Option<string>, templates: map<string, RoleTemplate>)
    requires customPrompt != ""
    ensures SystemPromptFor(Some(customPrompt), selectedRole, templates) == Some(customPrompt)
  {
  }

  /** An empty custom prompt, an unknown role key and a template with an empty prompt
      all fall back to the agent's instructions without an error. */
  lemma FallbacksGiveNoOverride(selectedRole: Option<string>, templates: map<string, RoleTemplate>)
    requires !KnownRole(selectedRole, templates) || templates[selectedRole.value].prompt == ""
    ensures SystemPromptFor(None, selectedRole, templates).None?
    ensures SystemPromptFor(Some(""), selectedRole, templates).None?
  {
  }

  /** `initiateAsyncStreaming`: check access, save the prompt, then schedule `streamAsync`
      for the saved message with the role key and the custom prompt as given. */
  method InitiateAsyncStreaming(db: Db, prompt: string, threadId: string,
                                selectedRole: Option<string>, customPrompt: Option<string>)
    returns (r: Outcome<Error>)
    requires db.Valid()
    modifies db
    ensures db.Valid()
    ensures r == old(Threads.AuthorizeThreadAccess(db, threadId, false))
    ensures r.Fail? ==> unchanged(db)
    ensures r.Pass? ==> Appended(db, [PromptMessage(threadId, prompt)],
      [MessageSaved(|old(db.messages)|),
       Scheduled(SystemPromptsStreamAsync(threadId, |old(db.messages)|, selectedRole, customPrompt))])
  {
    r := Threads.AuthorizeThreadAccess(db, threadId, false);
    if r.Fail? {
      return;
    }
    var messageId := db.SaveMessage(PromptMessage(threadId, prompt));
    db.Record(Scheduled(SystemPromptsStreamAsync(threadId, messageId, selectedRole, customPrompt)));
  }

  /** `streamAsync`: answer the saved message under the chosen system prompt. */
  method StreamAsync(db: Db, promptMessageId: MessageId, threadId: string,
                     selectedRole: Option<string>, customPrompt: Option<string>)
    requires db.Valid()
    modifies db
    ensures db.Valid()
    ensures Appended(db, [], [StreamText(Generation(threadId, Some(promptMessageId), None,
                                SystemPromptFor(customPrompt, selectedRole, old(db.roleTemplates)), []))])
  {
    var systemPrompt := SystemPromptFor(customPrompt, selectedRole, db.roleTemplates);
    db.Record(StreamText(Generation(threadId, Some(promptMessageId), None, systemPrompt, [])));
  }

  /** `listThreadMessages`: the thread's messages, after the access check. */
  function ListThreadMessages(db: Db, threadId: string): (r: Result<seq<Message>, Error>)
    reads db
    ensures r.Ok? <==> threadId in db.threads
    ensures r.Err? ==> r.error == LibraryFailure("getThreadMetadata")
    ensures r.Ok? ==> forall m :: m in r.value <==> m in db.messages && m.threadId == threadId
  {
    match Threads.AuthorizeThreadAccess(db, threadId, false)
    case Fail(e) => Err(e)
    case Pass => Ok(db.MessagesOf(threadId))
  }

  /** `getRoleTemplates`: the table the page offers is the one `streamAsync` chooses from,
      so every offered role, once selected (with no custom prompt), is answered under its
      own prompt, or under the agent's instructions when that prompt is empty. */
  function GetRoleTemplates(db: Db): (r: map<string, RoleTemplate>)
    reads db
    ensures forall k :: k in r <==> k in db.roleTemplates
    ensures forall k :: k in r && k != "" ==>
      SystemPromptFor(None, Some(k), db.roleTemplates) == (if r[k].prompt != "" then Some(r[k].prompt) else None)
  {
    db.roleTemplates
  }
}
