/** How the weather page shows a reply (components/chat/chat-weather.tsx): its reasoning
    text and one card per tool call, with an icon, a description, a state badge and the
    call's result. */
module WeatherUI {
  import opened Common
  import opened UIParts

  const Thermometer: string := "\U{1F321}\U{FE0F}"
  const WorldMap: string := "\U{1F5FA}\U{FE0F}"
  const Wrench: string := "\U{1F527}"

  /** `toolCall.type?.replace("tool-", "") || "unknown"`. */
  function ToolName(p: UIPart): (r: string)
    ensures r != ""
    ensures p.partType.None? ==> r == "unknown"
  {
    var n := if p.partType.Some? then Some(ReplaceFirst(p.partType.value, "tool-", "")) else None;
    if Truthy(n) then n.value else "unknown"
  }

  /** For the parts the page lists, the name is the type after its "tool-" prefix, and
      "unknown" for a bare "tool-". */
  lemma ToolNameOfToolPart(p: UIPart)
    requires IsToolPart(p)
    ensures ToolName(p) == if |p.partType.value| == 5 then "unknown" else p.partType.value[5..]
  {
    ReplaceFirstOfPrefix(p.partType.value, "tool-");
  }

  /** `getToolIcon`. */
  function Icon(toolName: string): (r: string)
    ensures r == Thermometer <==> toolName == "getWeather"
    ensures r == WorldMap <==> toolName == "geocode"
    ensures r == Wrench <==> toolName != "getWeather" && toolName != "geocode"
  {
    match toolName
    case "getWeather" => Thermometer
    case "geocode" => WorldMap
    case _ => Wrench
  }

  /** `getToolDescription(toolName, input)`. */
  function Description(toolName: string, input: Option<JsValue>): (r: string)
    ensures toolName == "getWeather" ==> StartsWith(r, "Fetched weather data")
    ensures toolName == "getWeather" ==>
      (r == "Fetched weather data" <==> !(JsTruthy(Get(input, "latitude")) && JsTruthy(Get(input, "longitude"))))
    ensures toolName == "geocode" ==> StartsWith(r, "Looking up location: ")
    ensures toolName != "getWeather" && toolName != "geocode" ==> r == "Called " + toolName
  {
    match toolName
    case "getWeather" =>
      var lat, lon := Get(input, "latitude"), Get(input, "longitude");
      var coords := if JsTruthy(lat) && JsTruthy(lon) then "(" + Printed(lat) + ", " + Printed(lon) + ")" else "";
      "Fetched weather data" + coords
    case "geocode" =>
      "Looking up location: " + Printed(Or(Or(Get(input, "location"), Get(input, "city")), Some(JsStr("Unknown"))))
    case _ => "Called " + toolName
  }

  /** A coordinate that is 0 (falsy) drops both coordinates from the description. */
  lemma ZeroCoordinateDropsCoordinates(lat: string, lon: JsValue)
    ensures Description("getWeather", Some(JsObj(map["latitude" := JsNum(lat, true), "longitude" := lon]))) ==
      "Fetched weather data"
  {
  }

  /** The geocode description names `location`, else `city`, else "Unknown". */
  lemma GeocodeNamesLocationFirst(input: Option<JsValue>)
    ensures JsTruthy(Get(input, "location")) ==>
      Description("geocode", input) == "Looking up location: " + Printed(Get(input, "location"))
    ensures !JsTruthy(Get(input, "location")) && JsTruthy(Get(input, "city")) ==>
      Description("geocode", input) == "Looking up location: " + Printed(Get(input, "city"))
    ensures !JsTruthy(Get(input, "location")) && !JsTruthy(Get(input, "city")) ==>
      Description("geocode", input) == "Looking up location: Unknown"
  {
  }

  /** The weather agent registers its lookup tool as `getGeocoding`
      (convex/agents/weather.ts), a name these rules do not know: its card gets the
      generic icon and description. */
  lemma GetGeocodingShownAsGeneric(input: Option<JsValue>)
    ensures Icon("getGeocoding") == Wrench
    ensures Description("getGeocoding", input) == "Called getGeocoding"
  {
  }

  /** `toolCall.output && Object.keys(toolCall.output).length > 0`. */
  predicate HasOutput(p: UIPart) {
    JsTruthy(p.output) && HasKeys(p.output.value)
  }

  /** One tool-call card. */
  datatype ToolCallCard = ToolCallCard(icon: string, name: string, badge: Badge, stateLabel: string,
                                       description: string, result: Option<JsValue>)

  /** `ToolCallDisplay`: the card is green exactly for "output-available", labelled with
      the state or "pending", and shows the output only when it has a key. */
  function Card(p: UIPart): (c: ToolCallCard)
    ensures c.name == ToolName(p) && c.icon == Icon(c.name)
    ensures c.badge == Green <==> p.state == Some("output-available")
    ensures c.stateLabel == if Truthy(p.state) then p.state.value else "pending"
    ensures c.stateLabel != ""
    ensures c.result.Some? <==> HasOutput(p)
    ensures c.result.Some? ==> c.result == p.output
    ensures c.description == Description(c.name, p.input)
  {
    var name := ToolName(p);
    ToolCallCard(Icon(name), name,
                 if p.state == Some("output-available") then Green else Gray,
                 if Truthy(p.state) then p.state.value else "pending",
                 Description(name, p.input),
                 if HasOutput(p) then p.output else None)
  }

  /** `WeatherMessage`: one card per tool part, in the order of the parts. */
  function Cards(m: UIMessage): (r: seq<ToolCallCard>)
    ensures |r| == |ToolCalls(m.parts)|
    ensures forall k :: 0 <= k < |r| ==> r[k] == Card(ToolCalls(m.parts)[k])
  {
    var calls := ToolCalls(m.parts);
    seq(|calls|, k requires 0 <= k < |calls| => Card(calls[k]))
  }
}
