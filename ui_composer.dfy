/** The prompt input of the chat pages: a text box that sends its text unless it is
    blank, then shows a follow-up text, and gets the text back if the send fails. */
module Composer {
  import opened Common

  /** What one click on Send hands to the backend, and the text a failure puts back. */
  datatype Submission = Submission(text: string, restore: string)

  /** The text box of one page. `afterSend` is what the box shows once a prompt is
      sent; `trimOnSend` says whether the page sends the trimmed prompt. */
  class PromptBox {
    var prompt: string
    const initial: string
    const afterSend: string
    const trimOnSend: bool

    constructor (initial: string, afterSend: string, trimOnSend: bool)
      ensures prompt == initial && this.initial == initial
      ensures this.afterSend == afterSend && this.trimOnSend == trimOnSend
    {
      prompt := initial;
      this.initial, this.afterSend, this.trimOnSend := initial, afterSend, trimOnSend;
    }

    /** `onChange={(e) => setPrompt(e.target.value)}`. */
    method Edit(text: string)
      modifies this
      ensures prompt == text
    {
      prompt := text;
    }

    /** `onSendClicked`: a prompt that is only white space sends nothing and changes
        nothing; otherwise the prompt (trimmed, on a trimming page) is sent and the box
        shows `afterSend`. */
    method Send() returns (sent: Option<Submission>)
      modifies this
      ensures AllSpace(old(prompt)) ==> sent.None? && prompt == old(prompt)
      ensures !AllSpace(old(prompt)) ==>
        sent == Some(Submission(if trimOnSend then Trim(old(prompt)) else old(prompt), old(prompt))) &&
        prompt == afterSend
    {
      TrimEmptyIffAllSpace(prompt);
      var trimmed := Trim(prompt);
      if trimmed == "" {
        return None;
      }
      sent := Some(Submission(if trimOnSend then trimmed else prompt, prompt));
      prompt := afterSend;
    }

    /** `.catch(() => setPrompt(prompt))`: a failed send puts back the prompt as typed. */
    method SendFailed(s: Submission)
      modifies this
      ensures prompt == s.restore
    {
      prompt := s.restore;
    }

    /** The page's reset button: the box shows the page's opening prompt again. */
    method Reset()
      modifies this
      ensures prompt == initial
    {
      prompt := initial;
    }
  }

  /** Send, then a failure of that send, leaves the box as it was before the click. */
  method SendThenFail(box: PromptBox) returns (sent: Option<Submission>)
    modifies box
    ensures box.prompt == old(box.prompt)
    ensures sent.Some? <==> !AllSpace(old(box.prompt))
  {
    sent := box.Send();
    if sent.Some? {
      box.SendFailed(sent.value);
    }
  }

  /** A trimming page never sends white space at either end, and never an empty prompt. */
  lemma TrimmedSubmissionIsClean(prompt: string)
    requires !AllSpace(prompt)
    ensures Trim(prompt) != "" && !IsJsSpace(Trim(prompt)[0]) && !IsJsSpace(Trim(prompt)[|Trim(prompt)| - 1])
  {
    TrimEmptyIffAllSpace(prompt);
    var t := TrimStart(prompt);
    assert Trim(prompt) == t[..|Trim(prompt)|];
  }
}
