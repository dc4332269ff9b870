/**
 * The records of agent/custom_types.py (`citation`, `Message`), the
 * shapes of the provider data the pipeline reads (tool-call requests and
 * search results) and the source records the front ends extract.
 */
module Types {
  import opened Wrappers

  /** A numbered source: `citation(number, title, url, snippet="")`. */
  datatype Citation = Citation(number: int, title: string, url: string, snippet: string)

  /** `Literal["user", "assistant", "tool", "system"]`. */
  datatype Role = UserRole | AssistantRole | ToolRole | SystemRole

  /** The literal a role is written as. */
  function RoleName(r: Role): string {
    match r
    case UserRole => "user"
    case AssistantRole => "assistant"
    case ToolRole => "tool"
    case SystemRole => "system"
  }

  /** Validation of a role string against the literal type; `None` is a rejected role. */
  function ParseRole(s: string): (r: Option<Role>)
    ensures r.Some? ==> RoleName(r.value) == s
  {
    if s == "user" then Some(UserRole)
    else if s == "assistant" then Some(AssistantRole)
    else if s == "tool" then Some(ToolRole)
    else if s == "system" then Some(SystemRole)
    else None
  }

  /** A tool-call request as the model returns it: `{id, function: {name, arguments}}`. */
  datatype ToolCall = ToolCall(id: string, name: string, arguments: string)

  /** A conversation message; `tool_calls` and `citations` default to empty lists. */
  datatype Message = Message(role: Role, content: string, toolCalls: seq<ToolCall>, citations: seq<Citation>)

  /** One entry of the search provider's `web.results` list, a JSON object of strings. */
  type SearchItem = map<string, string>

  /** `item.get(key, default)`. */
  function Lookup(item: SearchItem, key: string, default: string): (v: string)
    ensures key !in item ==> v == default
    ensures key in item ==> v == item[key]
  {
    if key in item then item[key] else default
  }

  /** The `web` member of a search response: `{"results": [...]}`, `results` possibly absent. */
  datatype WebSection = WebSection(results: Option<seq<SearchItem>>)

  /** What `response.json()` gives: not JSON at all, or an object whose `web` member may be absent. */
  datatype SearchBody = NotJson | JsonObject(web: Option<WebSection>)

  /** `data.get("web", {}).get("results", [])`. */
  function WebResults(web: Option<WebSection>): (items: seq<SearchItem>)
    ensures web.None? ==> items == []
    ensures web.Some? && web.value.results.None? ==> items == []
    ensures web.Some? && web.value.results.Some? ==> items == web.value.results.value
  {
    match web
    case None => []
    case Some(section) => section.results.GetOr([])
  }

  /** The Python exceptions the model raises: reading a local name before it is bound. */
  datatype PyError = UnboundLocalError(name: string)

  /** A `{"title": ..., "url": ...}` source as the two front ends extract it from the stream. */
  datatype Source = Source(title: string, url: string)

  /** Each role literal is accepted, and as that role only. */
  lemma ParseRoleRoundTrip(r: Role, s: string)
    ensures ParseRole(RoleName(r)) == Some(r)
    ensures ParseRole(s) == Some(r) <==> s == RoleName(r)
  {
  }
}
