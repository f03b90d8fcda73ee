/** How the human-in-the-loop page shows a reply (components/chat/chat-human-loop.tsx):
    the `confirmExit` call that asks the user to confirm, the confirmation panel and its
    two buttons, and one card per tool call. */
module HumanLoopUI {
  import opened Common
  import opened UIParts

  const Thinking: string := "\U{1F914}"
  const Wrench: string := "\U{1F527}"

  predicate IsConfirmExit(p: UIPart) {
    p.partType == Some("tool-confirmExit") || p.toolName == Some("confirmExit")
  }

  /** `toolCalls.find(...)`: the part the confirmation panel is about. */
  function ConfirmTarget(m: UIMessage): (r: Option<UIPart>)
    ensures r.Some? ==> r.value in m.parts && IsToolPart(r.value) && IsConfirmExit(r.value)
    ensures r.None? <==> forall p :: p in m.parts && IsToolPart(p) ==> !IsConfirmExit(p)
  {
    var calls := ToolCalls(m.parts);
    var r := First(calls, IsConfirmExit);
    assert r.None? ==> forall p :: p in calls ==> !IsConfirmExit(p) by {
      if r.None? {
        forall p | p in calls ensures !IsConfirmExit(p) {
          var k :| 0 <= k < |calls| && calls[k] == p;
        }
      }
    }
    r
  }

  /** The target is the first part of the message, in order, that is both a tool part and
      a `confirmExit` call. */
  lemma ConfirmTargetIsFirstConfirmPart(m: UIMessage)
    ensures ConfirmTarget(m) == First(m.parts, p => IsToolPart(p) && IsConfirmExit(p))
  {
    FirstOfFilter(m.parts, IsToolPart, IsConfirmExit);
  }

  /** The panel is shown iff there is a target and the message has finished streaming. */
  predicate ShowPanel(m: UIMessage) {
    ConfirmTarget(m).Some? && m.status != "streaming"
  }

  /** The panel text: `input?.message || args?.message`. */
  function PanelMessage(p: UIPart): (r: Option<JsValue>)
    ensures JsTruthy(Get(p.input, "message")) ==> r == Get(p.input, "message")
    ensures !JsTruthy(Get(p.input, "message")) ==> r == Get(p.args, "message")
  {
    Or(Get(p.input, "message"), Get(p.args, "message"))
  }

  /** The arguments the buttons hand to `handleConfirmation`. */
  datatype ConfirmCall = ConfirmCall(toolCallId: string, confirmed: bool)

  /** `onConfirm(confirmExitToolCall.toolCallId, confirmed)`: the confirm button passes
      `true`, the cancel button `false`, both with the target's call id. */
  function ButtonCall(m: UIMessage, confirmed: bool): (r: Option<ConfirmCall>)
    ensures r.Some? <==> ShowPanel(m)
    ensures r.Some? ==> r.value.toolCallId == ConfirmTarget(m).value.toolCallId && r.value.confirmed == confirmed
  {
    if ShowPanel(m) then Some(ConfirmCall(ConfirmTarget(m).value.toolCallId, confirmed)) else None
  }

  /** `type?.replace("tool-", "") || toolName || "unknown"`. */
  function ToolName(p: UIPart): (r: string)
    ensures r != ""
  {
    var n := if p.partType.Some? then Some(ReplaceFirst(p.partType.value, "tool-", "")) else None;
    if Truthy(n) then n.value else if Truthy(p.toolName) then p.toolName.value else "unknown"
  }

  /** For a listed part, the name is the type after "tool-"; only a bare "tool-" falls
      back to the part's `toolName`, then to "unknown". */
  lemma ToolNameOfToolPart(p: UIPart)
    requires IsToolPart(p)
    ensures |p.partType.value| > 5 ==> ToolName(p) == p.partType.value[5..]
    ensures |p.partType.value| == 5 && Truthy(p.toolName) ==> ToolName(p) == p.toolName.value
    ensures |p.partType.value| == 5 && !Truthy(p.toolName) ==> ToolName(p) == "unknown"
  {
    ReplaceFirstOfPrefix(p.partType.value, "tool-");
  }

  function Icon(toolName: string): (r: string)
    ensures r == Thinking <==> toolName == "confirmExit"
    ensures r == Wrench <==> toolName != "confirmExit"
  {
    if toolName == "confirmExit" then Thinking else Wrench
  }

  /** `(input || args)?.exitType || "unknown"`. */
  function ExitType(input: Option<JsValue>, args: Option<JsValue>): (r: Option<JsValue>)
    ensures JsTruthy(r)
    ensures JsTruthy(input) && JsTruthy(Get(input, "exitType")) ==> r == Get(input, "exitType")
    ensures !JsTruthy(input) && JsTruthy(Get(args, "exitType")) ==> r == Get(args, "exitType")
  {
    Or(Get(Or(input, args), "exitType"), Some(JsStr("unknown")))
  }

  /** The exit type comes from `input` whenever `input` is there (an object is truthy),
      even when it lacks `exitType`: `args` is then never read. */
  lemma ExitTypeIgnoresArgsGivenInput(input: map<string, JsValue>, args: Option<JsValue>)
    ensures ExitType(Some(JsObj(input)), args) == ExitType(Some(JsObj(input)), None)
    ensures "exitType" !in input ==> ExitType(Some(JsObj(input)), args) == Some(JsStr("unknown"))
  {
  }

  /** `getToolDescription(toolName, input, args)`. */
  function Description(toolName: string, input: Option<JsValue>, args: Option<JsValue>): (r: string)
    ensures toolName != "confirmExit" ==> r == "Called " + toolName
    ensures toolName == "confirmExit" ==>
      r == "Requesting " + Printed(ExitType(input, args)) + " confirmation to end conversation"
  {
    if toolName == "confirmExit" then
      "Requesting " + Printed(ExitType(input, args)) + " confirmation to end conversation"
    else "Called " + toolName
  }

  predicate HasOutput(p: UIPart) {
    JsTruthy(p.output) && HasKeys(p.output.value)
  }

  predicate HasResult(p: UIPart) {
    JsTruthy(p.result)
  }

  /** The badge: green first, then orange for a call still waiting, gray otherwise. */
  function BadgeOf(p: UIPart): (b: Badge)
    ensures b == Green <==> p.state == Some("output-available") || HasResult(p) || HasOutput(p)
    ensures b == Orange <==> b != Green && (p.state == Some("pending") || p.state == Some("input-available"))
  {
    if p.state == Some("output-available") || HasResult(p) || HasOutput(p) then Green
    else if p.state == Some("pending") || p.state == Some("input-available") then Orange
    else Gray
  }

  /** `state || (hasResult ? "completed" : "pending")`. */
  function StateLabel(p: UIPart): (r: string)
    ensures Truthy(p.state) ==> r == p.state.value
    ensures !Truthy(p.state) ==> (r == "completed" <==> HasResult(p))
    ensures !Truthy(p.state) && !HasResult(p) ==> r == "pending"
  {
    if Truthy(p.state) then p.state.value else if HasResult(p) then "completed" else "pending"
  }

  /** The input block shows `input || args`, when that is truthy. */
  function ShownInput(p: UIPart): (r: Option<JsValue>)
    ensures r.Some? <==> JsTruthy(p.input) || JsTruthy(p.args)
    ensures r.Some? ==> r == (if JsTruthy(p.input) then p.input else p.args)
  {
    var v := Or(p.input, p.args);
    if JsTruthy(v) then v else None
  }

  /** The result block is shown for output or a result, and shows `output || result`. */
  function ShownResult(p: UIPart): (r: Option<JsValue>)
    ensures r.Some? <==> HasOutput(p) || HasResult(p)
    ensures HasOutput(p) ==> r == p.output
    ensures !HasOutput(p) && HasResult(p) ==> r == (if JsTruthy(p.output) then p.output else p.result)
  {
    if HasOutput(p) || HasResult(p) then Or(p.output, p.result) else None
  }

  /** An empty object as output is truthy, so it hides a result even though it has no
      key: the block then shows the `{}`. */
  lemma EmptyOutputShadowsResult(p: UIPart)
    requires p.output == Some(JsObj(map[])) && HasResult(p)
    ensures ShownResult(p) == Some(JsObj(map[]))
    ensures BadgeOf(p) == Green
  {
  }

  datatype ToolCallCard = ToolCallCard(icon: string, name: string, badge: Badge, stateLabel: string,
                                       description: string, input: Option<JsValue>, result: Option<JsValue>)

  /** `ToolCallDisplay` for one part. */
  function Card(p: UIPart): (c: ToolCallCard)
    ensures c.name == ToolName(p) && c.icon == Icon(c.name)
    ensures c.badge == BadgeOf(p) && c.stateLabel == StateLabel(p) && c.stateLabel != ""
    ensures c.description == Description(c.name, p.input, p.args)
    ensures c.input == ShownInput(p) && c.result == ShownResult(p)
  {
    var name := ToolName(p);
    ToolCallCard(Icon(name), name, BadgeOf(p), StateLabel(p), Description(name, p.input, p.args),
                 ShownInput(p), ShownResult(p))
  }
}
