/** The role picker of the system-prompt page (components/chat/chat-system-prompts.tsx):
    three kinds of radio button (the default assistant, one per role template, a custom
    prompt), the custom prompt editor, the "current role" line and the message the page
    sends, which the backend turns into a system prompt. */
module RolePickerUI {
  import opened Common
  import opened Store
  import opened Composer
  import SystemPrompts

  const OpeningPrompt: string := "请介绍一下人工智能的发展历程"

  /** What `onSendClicked` hands to `initiateAsyncStreaming`; a `None` field is left out
      of the object. */
  datatype MessageData = MessageData(threadId: string, prompt: string,
                                     selectedRole: Option<string>, customPrompt: Option<string>)

  /** The message object: the role key only when one is selected, the custom prompt only
      while the editor is open and the prompt is non-empty, and the prompt as typed. */
  function PayloadOf(threadId: string, prompt: string, selectedRole: string,
                     showCustomEditor: bool, customPrompt: string): (d: MessageData)
    ensures d.threadId == threadId && d.prompt == prompt
    ensures d.selectedRole.Some? <==> selectedRole != ""
    ensures d.selectedRole.Some? ==> d.selectedRole.value == selectedRole
    ensures d.customPrompt.Some? <==> showCustomEditor && customPrompt != ""
    ensures d.customPrompt.Some? ==> d.customPrompt.value == customPrompt
    ensures Truthy(d.selectedRole) <==> d.selectedRole.Some?
    ensures Truthy(d.customPrompt) <==> d.customPrompt.Some?
  {
    MessageData(threadId, prompt,
                if selectedRole != "" then Some(selectedRole) else None,
                if showCustomEditor && customPrompt != "" then Some(customPrompt) else None)
  }

  /** Which role the "current role" line describes. */
  datatype RoleChoice = CustomRole | TemplateRole(key: string) | DefaultRole

  /** The branch `getCurrentRoleInfo` takes; `templates` is `None` until the template
      table has loaded. */
  function ShownChoice(showCustomEditor: bool, customPrompt: string, selectedRole: string,
                       templates: Option<map<string, RoleTemplate>>): (c: RoleChoice)
    ensures c == CustomRole <==> showCustomEditor && customPrompt != ""
    ensures c.TemplateRole? <==> (!(showCustomEditor && customPrompt != "") && selectedRole != "" &&
      templates.Some? && selectedRole in templates.value)
    ensures c.TemplateRole? ==> c.key == selectedRole
  {
    if showCustomEditor && customPrompt != "" then CustomRole
    else if selectedRole != "" && templates.Some? && selectedRole in templates.value then TemplateRole(selectedRole)
    else DefaultRole
  }

  datatype RoleInfo = RoleInfo(name: string, description: string)

  const CustomInfo: RoleInfo := RoleInfo("\U{1F527} 自定义角色", "使用自定义系统提示词")
  const DefaultInfo: RoleInfo := RoleInfo("\U{1F916} 默认助手", "使用默认系统提示词")

  /** `getCurrentRoleInfo`: custom first, then the selected template, then the default. */
  function CurrentRoleInfo(showCustomEditor: bool, customPrompt: string, selectedRole: string,
                           templates: Option<map<string, RoleTemplate>>): (r: RoleInfo)
    ensures ShownChoice(showCustomEditor, customPrompt, selectedRole, templates) == CustomRole ==> r == CustomInfo
    ensures ShownChoice(showCustomEditor, customPrompt, selectedRole, templates) == DefaultRole ==> r == DefaultInfo
    ensures ShownChoice(showCustomEditor, customPrompt, selectedRole, templates).TemplateRole? ==>
      r == RoleInfo(templates.value[selectedRole].name, templates.value[selectedRole].description)
  {
    match ShownChoice(showCustomEditor, customPrompt, selectedRole, templates)
    case CustomRole => CustomInfo
    case TemplateRole(key) => RoleInfo(templates.value[key].name, templates.value[key].description)
    case DefaultRole => DefaultInfo
  }

  /** The line and the backend agree: with the table the page loaded through
      `getRoleTemplates`, the system prompt the backend picks for the message the page
      sends is the custom prompt when the line says custom, the template's prompt when it
      names a template, and the agent's own instructions for the default. The one gap: a
      template with an empty prompt is shown as chosen but falls back to the agent's
      instructions. */
  lemma ShownRoleMatchesBackend(db: Db, threadId: string, prompt: string, selectedRole: string,
                                showCustomEditor: bool, customPrompt: string)
    ensures var d := PayloadOf(threadId, prompt, selectedRole, showCustomEditor, customPrompt);
      var loaded := SystemPrompts.GetRoleTemplates(db);
      var sp := SystemPrompts.SystemPromptFor(d.customPrompt, d.selectedRole, db.roleTemplates);
      match ShownChoice(showCustomEditor, customPrompt, selectedRole, Some(loaded))
      case CustomRole => sp == Some(customPrompt)
      case TemplateRole(k) => sp == (if loaded[k].prompt != "" then Some(loaded[k].prompt) else None)
      case DefaultRole => sp.None?
  {
  }

  /** The state of the picker and of the prompt box beside it. */
  class RolePicker {
    const threadId: string
    const box: PromptBox
    var selectedRole: string
    var customPrompt: string
    var showCustomEditor: bool

    /** The editor is open only with no template selected. */
    ghost predicate Valid()
      reads this
    {
      showCustomEditor ==> selectedRole == ""
    }

    constructor (threadId: string)
      ensures Valid()
      ensures this.threadId == threadId && fresh(box)
      ensures box.prompt == OpeningPrompt && box.initial == OpeningPrompt && box.afterSend == "" && !box.trimOnSend
      ensures selectedRole == "" && customPrompt == "" && !showCustomEditor
    {
      this.threadId := threadId;
      box := new PromptBox(OpeningPrompt, "", false);
      selectedRole, customPrompt, showCustomEditor := "", "", false;
    }

    predicate DefaultChecked()
      reads this
    {
      selectedRole == "" && !showCustomEditor
    }

    predicate RoleChecked(key: string)
      reads this
    {
      selectedRole == key && !showCustomEditor
    }

    predicate CustomChecked()
      reads this
    {
      showCustomEditor
    }

    /** With a selection that is empty or one of the template keys (none of which is
        empty), exactly one radio button is checked. */
    lemma ExactlyOneChecked(keys: set<string>)
      requires Valid()
      requires "" !in keys && (selectedRole == "" || selectedRole in keys)
      ensures (if DefaultChecked() then 1 else 0) + |set k | k in keys && RoleChecked(k)| +
              (if CustomChecked() then 1 else 0) == 1
    {
      var checkedKeys := set k | k in keys && RoleChecked(k);
      if DefaultChecked() || CustomChecked() {
        assert checkedKeys == {};
      } else {
        assert checkedKeys == {selectedRole};
      }
    }

    /** The default radio's `onChange`: its value is "". */
    method OnDefaultSelected()
      modifies this
      ensures Valid() && DefaultChecked()
      ensures selectedRole == "" && !showCustomEditor && customPrompt == old(customPrompt)
    {
      selectedRole := "";
      showCustomEditor := false;
    }

    /** A template radio's `onChange`. */
    method OnRoleSelected(key: string)
      modifies this
      ensures Valid() && RoleChecked(key)
      ensures selectedRole == key && !showCustomEditor && customPrompt == old(customPrompt)
    {
      selectedRole := key;
      showCustomEditor := false;
    }

    /** The custom radio's `onChange`: opens the editor and clears the role. */
    method OnCustomSelected()
      modifies this
      ensures Valid() && CustomChecked()
      ensures selectedRole == "" && showCustomEditor && customPrompt == old(customPrompt)
    {
      showCustomEditor := true;
      selectedRole := "";
    }

    /** The editor's `onChange`. */
    method OnCustomPromptChanged(text: string)
      requires Valid()
      modifies this
      ensures Valid()
      ensures customPrompt == text && selectedRole == old(selectedRole) && showCustomEditor == old(showCustomEditor)
    {
      customPrompt := text;
    }

    /** `onSendClicked`: a blank prompt sends nothing and changes nothing; otherwise the
        message is built from the picker's state and the box is cleared. */
    method OnSendClicked() returns (sent: Option<MessageData>)
      requires box.afterSend == "" && !box.trimOnSend
      modifies box
      ensures AllSpace(old(box.prompt)) ==> sent.None? && box.prompt == old(box.prompt)
      ensures !AllSpace(old(box.prompt)) ==>
        sent == Some(PayloadOf(threadId, old(box.prompt), selectedRole, showCustomEditor, customPrompt)) &&
        box.prompt == ""
    {
      var s := box.Send();
      match s
      case None => sent := None;
      case Some(sub) =>
        sent := Some(PayloadOf(threadId, sub.text, selectedRole, showCustomEditor, customPrompt));
    }

    /** `.catch(() => setPrompt(prompt))`: the prompt as it was sent comes back. */
    method OnSendFailed(sent: MessageData)
      modifies box
      ensures box.prompt == sent.prompt
    {
      box.SendFailed(Submission(sent.prompt, sent.prompt));
    }

    /** The clear button puts the opening prompt back. */
    method OnResetClicked()
      requires box.initial == OpeningPrompt
      modifies box
      ensures box.prompt == OpeningPrompt
    {
      box.Reset();
    }
  }
}
