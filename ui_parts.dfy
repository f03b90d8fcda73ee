/** The UI messages the chat pages render (what `toUIMessages` hands them), reduced to
    the fields the display rules read, with JavaScript's truthiness of their values. */
module UIParts {
  import opened Common

  /** A JSON value as it reaches the page. A number is kept only as its printed form
      and whether it is falsy (0 or NaN). */
  datatype JsValue =
    | JsStr(s: string)
    | JsNum(printed: string, falsy: bool)
    | JsBool(b: bool)
    | JsNull
    | JsObj(fields: map<string, JsValue>)
    | JsArr(items: seq<JsValue>)

  /** JavaScript truthiness of a value that may be `undefined` (`None`). */
  predicate JsTruthy(v: Option<JsValue>) {
    match v
    case None => false
    case Some(JsStr(s)) => s != ""
    case Some(JsNum(_, falsy)) => !falsy
    case Some(JsBool(b)) => b
    case Some(JsNull) => false
    case Some(JsObj(_)) => true
    case Some(JsArr(_)) => true
  }

  /** `a || b`. */
  function Or(a: Option<JsValue>, b: Option<JsValue>): (r: Option<JsValue>)
    ensures JsTruthy(a) ==> r == a
    ensures !JsTruthy(a) ==> r == b
  {
    if JsTruthy(a) then a else b
  }

  /** `v?.key`: the property of an object, `undefined` for a missing key or a non-object.
      The pages read only named keys, which an array does not have. */
  function Get(v: Option<JsValue>, key: string): (r: Option<JsValue>)
    ensures r.Some? <==> v.Some? && v.value.JsObj? && key in v.value.fields
    ensures r.Some? ==> r.value == v.value.fields[key]
  {
    if v.Some? && v.value.JsObj? && key in v.value.fields then Some(v.value.fields[key]) else None
  }

  /** `${v}`: the text template interpolation prints. */
  function Printed(v: Option<JsValue>): string {
    match v
    case None => "undefined"
    case Some(x) => ValueText(x)
  }

  /** `String(v)` of a value that is there; an array prints as its items joined by ",". */
  function ValueText(v: JsValue): string
    decreases v, 1
  {
    match v
    case JsStr(s) => s
    case JsNum(p, _) => p
    case JsBool(b) => if b then "true" else "false"
    case JsNull => "null"
    case JsObj(_) => "[object Object]"
    case JsArr(items) => ItemsText(v, 0)
  }

  /** How one item of an array prints: `null` as "", anything else as itself. */
  function ItemText(item: JsValue): string
    decreases item, 2
  {
    if item.JsNull? then "" else ValueText(item)
  }

  /** `arr.slice(i).join(",")`, where a `null` item prints as "". */
  function ItemsText(arr: JsValue, i: nat): string
    requires arr.JsArr? && i <= |arr.items|
    decreases arr, 0, |arr.items| - i
  {
    if i == |arr.items| then ""
    else
      ItemText(arr.items[i])
      + (if i + 1 == |arr.items| then "" else "," + ItemsText(arr, i + 1))
  }

  /** Printing an array puts its first item before the rest, with one "," between them:
      `[a]` prints as a's item text and `[a, b, …]` as a's, ",", then the rest's. */
  lemma ArrayPrintingStep(a: JsValue, rest: seq<JsValue>)
    ensures Printed(Some(JsArr([a] + rest))) ==
      ItemText(a) + (if rest == [] then "" else "," + Printed(Some(JsArr(rest))))
  {
    var arr := JsArr([a] + rest);
    assert arr.items[0] == a;
    assert ValueText(arr) == ItemsText(arr, 0);
    if rest != [] {
      assert arr.items[1..] == rest;
      ShiftedItems(arr, JsArr(rest), 1);
      assert ValueText(JsArr(rest)) == ItemsText(JsArr(rest), 0);
    }
  }

  /** The items of `arr` from `i` on print like the array `tail` of exactly those items. */
  lemma {:induction false} ShiftedItems(arr: JsValue, tail: JsValue, k: nat)
    requires arr.JsArr? && tail.JsArr? && k <= |arr.items| && tail.items == arr.items[k..]
    ensures ItemsText(arr, k) == ItemsText(tail, 0)
    decreases |tail.items|
  {
    if k < |arr.items| {
      assert tail.items[0] == arr.items[k];
      if k + 1 < |arr.items| {
        ShiftedItems(arr, JsArr(tail.items[1..]), k + 1);
        ShiftedItems(tail, JsArr(tail.items[1..]), 1);
      }
    }
  }

  /** `Object.keys(v).length > 0` for a value that is there: an object with a property,
      a non-empty array or a non-empty string; never a number, a boolean or null. */
  predicate HasKeys(v: JsValue) {
    match v
    case JsObj(fields) => |fields| > 0
    case JsArr(items) => |items| > 0
    case JsStr(s) => |s| > 0
    case _ => false
  }

  /** One part of a UI message. */
  datatype UIPart = UIPart(
    partType: Option<string>,
    text: string,
    toolName: Option<string>,
    toolCallId: string,
    state: Option<string>,
    input: Option<JsValue>,
    args: Option<JsValue>,
    output: Option<JsValue>,
    result: Option<JsValue>)

  /** The colour of a tool call's state badge. */
  datatype Badge = Green | Orange | Gray

  datatype UIMessage = UIMessage(key: string, status: string, order: int, parts: seq<UIPart>)

  predicate IsToolPart(p: UIPart) {
    p.partType.Some? && StartsWith(p.partType.value, "tool-")
  }

  /** `parts.filter((p) => p.type?.startsWith("tool-"))`. */
  function ToolCalls(parts: seq<UIPart>): (r: seq<UIPart>)
    ensures |r| <= |parts|
    ensures forall p :: p in r <==> p in parts && IsToolPart(p)
  {
    Filter(parts, IsToolPart)
  }

  /** The tool parts of two runs of parts are those of each, in order. */
  lemma ToolCallsAppend(a: seq<UIPart>, b: seq<UIPart>)
    ensures ToolCalls(a + b) == ToolCalls(a) + ToolCalls(b)
  {
    FilterAppend(a, b, IsToolPart);
  }

  predicate IsReasoningPart(p: UIPart) {
    p.partType == Some("reasoning")
  }

  /** The texts of the parts, in order. */
  function Texts(parts: seq<UIPart>): (r: seq<string>)
    ensures |r| == |parts| && forall k :: 0 <= k < |parts| ==> r[k] == parts[k].text
  {
    seq(|parts|, k requires 0 <= k < |parts| => parts[k].text)
  }

  /** `parts.filter((p) => p.type === "reasoning").map((p) => p.text).join("\n")`. */
  function ReasoningText(parts: seq<UIPart>): string {
    Join(Texts(Filter(parts, IsReasoningPart)), "\n")
  }

  /** Reasoning spread over two runs of parts reads as the first run's reasoning, a
      newline, then the second's; a run without reasoning adds nothing. */
  lemma ReasoningTextAppend(a: seq<UIPart>, b: seq<UIPart>)
    ensures Filter(a, IsReasoningPart) == [] ==> ReasoningText(a + b) == ReasoningText(b)
    ensures Filter(b, IsReasoningPart) == [] ==> ReasoningText(a + b) == ReasoningText(a)
    ensures Filter(a, IsReasoningPart) != [] && Filter(b, IsReasoningPart) != [] ==>
      ReasoningText(a + b) == ReasoningText(a) + "\n" + ReasoningText(b)
  {
    var fa, fb := Filter(a, IsReasoningPart), Filter(b, IsReasoningPart);
    FilterAppend(a, b, IsReasoningPart);
    assert Texts(fa + fb) == Texts(fa) + Texts(fb);
    if fa == [] {
      assert fa + fb == fb;
    } else if fb == [] {
      assert fa + fb == fa;
    } else {
      JoinAppend(Texts(fa), Texts(fb), "\n");
    }
  }
}
