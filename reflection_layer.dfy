/** The action validator of `reflection_layer.py`: a table of tool schemas and a
    verdict function that checks a decoded tool call against it and against the
    recent conversation. */
module Reflection {

  import opened Wrappers
  import opened Text
  import opened Json
  import opened Messages

  /** The tools `TOOL_SCHEMAS` has an entry for, in declaration order. */
  datatype Tool = Search | Scrape | Sandbox | Command | ManageNotes | ManageCalendar | ManageWallet
                | ImageSearch | VideoSearch | OsintLookup | GetWeather

  /** The key of the tool's entry in `TOOL_SCHEMAS`. */
  function Name(t: Tool): string {
    match t
    case Search => "search"
    case Scrape => "scrape"
    case Sandbox => "sandbox"
    case Command => "command"
    case ManageNotes => "manage_notes"
    case ManageCalendar => "manage_calendar"
    case ManageWallet => "manage_wallet"
    case ImageSearch => "image_search"
    case VideoSearch => "video_search"
    case OsintLookup => "osint_lookup"
    case GetWeather => "get_weather"
  }

  /** One entry of `TOOL_SCHEMAS`. Fields an entry does not declare are `None` / empty. */
  datatype Schema = Schema(
    required: seq<string>,
    minQueryLength: Option<nat>,
    maxQueryLength: Option<nat>,
    validateUrl: bool,
    maxCodeLength: Option<nat>,
    dangerousCommands: seq<string>,
    validActions: seq<string>,
    validTypes: seq<string>)

  function Plain(required: seq<string>): Schema {
    Schema(required, None, None, false, None, [], [], [])
  }

  const DangerousCommands: seq<string> := ["rm -rf", "sudo ", "dd ", "> /", ":(){ :|:& };:"]

  /** `TOOL_SCHEMAS[name]` */
  function SchemaOf(t: Tool): Schema {
    match t
    case Search => Plain(["query"]).(minQueryLength := Some(3), maxQueryLength := Some(200))
    case Scrape => Plain(["url"]).(validateUrl := true)
    case Sandbox => Plain(["code"]).(maxCodeLength := Some(5000))
    case Command => Plain(["command"]).(dangerousCommands := DangerousCommands)
    case ManageNotes => Plain(["action"]).(validActions := ["create", "search", "update", "delete", "categories"])
    case ManageCalendar => Plain(["action"]).(validActions := ["add", "list", "remove", "update"])
    case ManageWallet => Plain(["action"]).(validActions := ["balance", "history", "prepare_transfer"])
    case ImageSearch => Plain(["query"]).(minQueryLength := Some(2))
    case VideoSearch => Plain(["query"]).(minQueryLength := Some(2))
    case OsintLookup => Plain(["target", "type"]).(validTypes := ["username", "domain", "email"])
    case GetWeather => Plain(["location"])
  }

  /** `TOOL_SCHEMAS.keys()`, in declaration order. */
  const ToolNames: seq<string> := ["search", "scrape", "sandbox", "command", "manage_notes", "manage_calendar",
                                   "manage_wallet", "image_search", "video_search", "osint_lookup", "get_weather"]

  /** The tool a string names: the lookup `TOOL_SCHEMAS.get(name)` performs. */
  function Lookup(name: string): (r: Option<Tool>)
    ensures r.Some? ==> Name(r.value) == name
    ensures r.None? ==> forall t: Tool :: Name(t) != name
    ensures r.Some? <==> name in ToolNames
  {
    if name == "search" then Some(Search)
    else if name == "scrape" then Some(Scrape)
    else if name == "sandbox" then Some(Sandbox)
    else if name == "command" then Some(Command)
    else if name == "manage_notes" then Some(ManageNotes)
    else if name == "manage_calendar" then Some(ManageCalendar)
    else if name == "manage_wallet" then Some(ManageWallet)
    else if name == "image_search" then Some(ImageSearch)
    else if name == "video_search" then Some(VideoSearch)
    else if name == "osint_lookup" then Some(OsintLookup)
    else if name == "get_weather" then Some(GetWeather)
    else None
  }

  /** Every tool is found under its own key, and no two tools share a key. */
  lemma LookupName(t: Tool)
    ensures Lookup(Name(t)) == Some(t)
  {
  }


  /** The verdict of `validate`: `{"valid": True}`, `{"valid": False, "reason": ...,
      "suggestion": ...}`, or the message of the Python exception it raises on a
      value of the wrong type. */
  datatype Verdict = Valid | Invalid(reason: string, suggestion: string) | Raises(error: string)

  // ---------------------------------------------------------------------------
  // Python operations on values of unknown type

  /** `len(v)`, or the `TypeError` message when `v` has no length. */
  function PyLen(v: JVal): Result<nat> {
    match v
    case JStr(s) => Ok(|s|)
    case JArr(items) => Ok(|items|)
    case JObj(members) => Ok(|ToMap(members).Keys|)
    case _ => Err("object of type '" + TypeName(v) + "' has no len()")
  }

  /** `pattern in v` for a string pattern, or the `TypeError` message when `v` cannot
      be searched. */
  function PyIn(pattern: string, v: JVal): Result<bool> {
    match v
    case JStr(s) => Ok(Contains(s, pattern))
    case JArr(items) => Ok(JStr(pattern) in items)
    case JObj(members) => Ok(pattern in ToMap(members))
    case _ => Err("argument of type '" + TypeName(v) + "' is not iterable")
  }

  datatype Result<T> = Ok(value: T) | Err(message: string)

  // ---------------------------------------------------------------------------
  // _is_valid_url: the regular expression, piece by piece

  predicate IsAsciiLetter(c: char) { 'a' <= c <= 'z' || 'A' <= c <= 'Z' }

  predicate IsAlnum(c: char) { IsAsciiLetter(c) || IsDigit(c) }

  /** `[A-Z0-9](?:[A-Z0-9-]{0,61}[A-Z0-9])?` under IGNORECASE */
  predicate Label(t: string) {
    1 <= |t| <= 63 && IsAlnum(t[0]) && IsAlnum(t[|t| - 1])
    && forall k :: 0 < k < |t| - 1 ==> IsAlnum(t[k]) || t[k] == '-'
  }

  /** `[A-Z]{2,6}\.?` */
  predicate TopLevel(t: string) {
    var n := if |t| > 0 && t[|t| - 1] == '.' then |t| - 1 else |t|;
    2 <= n <= 6 && forall k :: 0 <= k < n ==> IsAsciiLetter(t[k])
  }

  /** `(?:label\.)+[A-Z]{2,6}\.?` */
  predicate DomainName(h: string)
    decreases |h|
  {
    exists p :: 0 < p < |h| && h[p] == '.' && Label(h[..p]) && (TopLevel(h[p + 1..]) || DomainName(h[p + 1..]))
  }

  predicate Digits(t: string, lo: nat, hi: nat) {
    lo <= |t| <= hi && forall k :: 0 <= k < |t| ==> IsDigit(t[k])
  }

  /** `\d{1,3}\.\d{1,3}\.\d{1,3}\.\d{1,3}` */
  predicate DottedQuad(h: string) {
    exists a, b, c :: 0 <= a < b < c < |h| && h[a] == '.' && h[b] == '.' && h[c] == '.'
      && Digits(h[..a], 1, 3) && Digits(h[a + 1..b], 1, 3) && Digits(h[b + 1..c], 1, 3) && Digits(h[c + 1..], 1, 3)
  }

  predicate Host(h: string) {
    DomainName(h) || Lower(h) == "localhost" || DottedQuad(h)
  }

  /** `(?::\d+)?` */
  predicate Port(t: string) {
    t == [] || (|t| >= 2 && t[0] == ':' && Digits(t[1..], 1, |t|))
  }

  /** `(?:/?|[/?]\S+)` */
  predicate Tail(t: string) {
    t == [] || t == "/" || (|t| >= 2 && (t[0] == '/' || t[0] == '?') && forall k :: 1 <= k < |t| ==> !IsSpace(t[k]))
  }

  /** The tail from `k` up to `$`: the end of the text, or just before a final newline. */
  predicate TailToEnd(u: string, k: nat)
    requires k <= |u|
  {
    Tail(u[k..]) || (k < |u| && u[|u| - 1] == '\n' && Tail(u[k..|u| - 1]))
  }

  predicate PortThenTail(u: string, j: nat)
    requires j <= |u|
  {
    exists k :: j <= k <= |u| && Port(u[j..k]) && TailToEnd(u, k)
  }

  predicate HostThenRest(u: string, s: nat)
    requires s <= |u|
  {
    exists j :: s <= j <= |u| && Host(u[s..j]) && PortThenTail(u, j)
  }

  /** `_is_valid_url(url)` for a string: `re.match` of the pattern, ignoring case. */
  predicate IsValidUrl(u: string) {
    (|u| >= 7 && Lower(u[..7]) == "http://" && HostThenRest(u, 7))
    || (|u| >= 8 && Lower(u[..8]) == "https://" && HostThenRest(u, 8))
  }

  // ---------------------------------------------------------------------------
  // _is_redundant

  /** `xs[-n:]` for `n > 0`. */
  function LastN<T>(xs: seq<T>, n: nat): (r: seq<T>)
    ensures |r| <= n && |r| <= |xs| && r == xs[|xs| - |r|..]
    ensures |xs| >= n ==> |r| == n
  {
    if |xs| <= n then xs else xs[|xs| - n..]
  }

  /** One of the last 8 messages, lower-cased, contains `"input: " + query`. */
  predicate MentionedRecently(query: string, context: seq<Message>) {
    exists m :: m in LastN(context, 8) && Contains(Lower(m.content), "input: " + Lower(query))
  }

  // ---------------------------------------------------------------------------
  // validate

  const MissingTool := Invalid("Missing tool name", "Specify which tool to use in the format {\"tool\": \"...\", ...}")

  function UnknownTool(shown: string): Verdict {
    Invalid("Unknown tool: " + shown, "Available tools: " + Join(", ", ToolNames))
  }

  const Redundant := Invalid("Information already available or recently sought in context",
                             "Summarize what you already found or try a different search term")

  function MissingParameter(p: string, name: string): Verdict {
    Invalid("Missing required parameter: " + p, "Add '" + p + "' to the " + name + " call")
  }

  function Dangerous(shown: string): Verdict {
    Invalid("Potentially dangerous command detected: " + shown, "Restricted command. Try a different approach.")
  }

  function TooShort(n: nat): Verdict {
    Invalid("Query too short (" + NatToString(n) + " chars, need 3+)", "Use more specific search terms")
  }

  function TooLong(n: nat): Verdict {
    Invalid("Query too long (" + NatToString(n) + " chars, max 200)", "Shorten the query to its essence")
  }

  /** The first required parameter that is absent or falsy, in declared order. */
  function FirstMissing(call: Object, required: seq<string>): (r: Option<string>)
    ensures r.Some? ==> r.value in required && (r.value !in call || Falsy(call[r.value]))
    ensures r.Some? ==> exists i :: 0 <= i < |required| && required[i] == r.value
                          && forall j :: 0 <= j < i ==> required[j] in call && !Falsy(call[required[j]])
    ensures r.None? ==> forall p :: p in required ==> p in call && !Falsy(call[p])
  {
    if required == [] then None
    else if required[0] !in call || Falsy(call[required[0]]) then Some(required[0])
    else
      var r := FirstMissing(call, required[1..]);
      assert r.Some? ==> exists i :: 1 <= i < |required| && required[i] == r.value
                                     && forall j :: 0 <= j < i ==> required[j] in call && !Falsy(call[required[j]]) by {
        if r.Some? {
          var i :| 0 <= i < |required[1..]| && required[1..][i] == r.value
                   && forall j :: 0 <= j < i ==> required[1..][j] in call && !Falsy(call[required[1..][j]]);
          assert required[i + 1] == r.value;
          forall j | 0 <= j < i + 1 ensures required[j] in call && !Falsy(call[required[j]]) {
            if j > 0 { assert required[j] == required[1..][j - 1]; }
          }
        }
      }
      r
  }

  /** `any(p in v for p in patterns)`, evaluated left to right. */
  function AnyIn(patterns: seq<string>, v: JVal): (r: Result<bool>)
    ensures r == Ok(true) <==> exists k :: 0 <= k < |patterns| && PyIn(patterns[k], v) == Ok(true)
  {
    if patterns == [] then Ok(false)
    else
      match PyIn(patterns[0], v)
      case Err(msg) => Err(msg)
      case Ok(found) =>
        if found then Ok(true)
        else
          var r := AnyIn(patterns[1..], v);
          assert forall k :: 1 <= k < |patterns| ==> patterns[k] == patterns[1..][k - 1];
          r
  }

  /** The checks `validate` makes for the tool it names (lines 97-145). */
  function ToolCheck(t: Tool, call: Object): Verdict {
    match t
    case Search =>
      (match PyLen(Get(call, "query", JStr("")))
       case Err(msg) => Raises(msg)
       case Ok(n) =>
         if n < 3 then TooShort(n)
         else if n > 200 then TooLong(n)
         else Valid)
    case Scrape =>
      var url := Get(call, "url", JStr(""));
      if url.JStr? && IsValidUrl(url.s) then Valid
      else Invalid("Invalid URL format: " + PyStr(url), "Provide a valid HTTP or HTTPS URL")
    case Command =>
      var command := Get(call, "command", JStr(""));
      (match AnyIn(SchemaOf(t).dangerousCommands, command)
       case Err(msg) => Raises(msg)
       case Ok(dangerous) =>
         if dangerous then Dangerous(PyStr(command))
         else Valid)
    case ManageNotes | ManageWallet | ManageCalendar =>
      var action := Get(call, "action", JNull);
      var actions := SchemaOf(t).validActions;
      if action.JStr? && action.s in actions then Valid
      else Invalid("Invalid action '" + PyStr(action) + "' for " + Name(t), "Use one of: " + Join(", ", actions))
    case _ => Valid
  }

  /** `_is_redundant(call, context)` for a call to `t`, or the `AttributeError` of
      `.lower()` on a search query that is not a string. */
  function RedundancyCheck(t: Tool, call: Object, context: seq<Message>): Verdict {
    if t != Search then Valid
    else
      var query := Get(call, "query", JStr(""));
      if !query.JStr? then Raises("'" + TypeName(query) + "' object has no attribute 'lower'")
      else if MentionedRecently(query.s, context) then Redundant
      else Valid
  }

  /** What `validate` does once the tool is known: the required parameters, then the
      tool's own checks, then redundancy. */
  function CheckTool(t: Tool, call: Object, context: seq<Message>): Verdict {
    match FirstMissing(call, SchemaOf(t).required)
    case Some(p) => MissingParameter(p, Name(t))
    case None =>
      var specific := ToolCheck(t, call);
      if specific != Valid then specific else RedundancyCheck(t, call, context)
  }

  /** `ReflectionLayer.validate(call, context)` */
  function Validate(call: Object, context: seq<Message>): Verdict {
    var tool := Get(call, "tool", JNull);
    if Falsy(tool) then MissingTool
    else if tool.JArr? || tool.JObj? then Raises("unhashable type: '" + TypeName(tool) + "'")
    else if !tool.JStr? || Lookup(tool.s).None? then UnknownTool(PyStr(tool))
    else CheckTool(Lookup(tool.s).value, call, context)
  }

  // ---------------------------------------------------------------------------
  // What validate accepts

  /** The tool a call names, when it names one with a schema. */
  function CalledTool(call: Object): Option<Tool> {
    var tool := Get(call, "tool", JNull);
    if tool.JStr? then Lookup(tool.s) else None
  }

  /** A declarative statement of the calls `validate` accepts. */
  predicate Acceptable(call: Object, context: seq<Message>) {
    CalledTool(call).Some? && ToolAccepts(CalledTool(call).value, call, context)
  }

  predicate ToolAccepts(t: Tool, call: Object, context: seq<Message>) {
    (forall p :: p in SchemaOf(t).required ==> p in call && !Falsy(call[p]))
    && SpecificAccepts(t, call, context)
  }

  /** The conditions of the tool's own checks and of the redundancy check. */
  predicate SpecificAccepts(t: Tool, call: Object, context: seq<Message>) {
    match t
    case Search =>
      var query := Get(call, "query", JStr(""));
      query.JStr? && 3 <= |query.s| <= 200 && !MentionedRecently(query.s, context)
    case Scrape =>
      Get(call, "url", JStr("")).JStr? && IsValidUrl(Get(call, "url", JStr("")).s)
    case Command =>
      forall k :: 0 <= k < |DangerousCommands| ==> PyIn(DangerousCommands[k], Get(call, "command", JStr(""))) == Ok(false)
    case ManageNotes | ManageWallet | ManageCalendar =>
      Get(call, "action", JNull).JStr? && Get(call, "action", JNull).s in SchemaOf(t).validActions
    case _ => true
  }

  lemma AnyInFalse(patterns: seq<string>, v: JVal)
    requires forall k :: 0 <= k < |patterns| ==> PyIn(patterns[k], v) == Ok(false)
    ensures AnyIn(patterns, v) == Ok(false)
  {
    if patterns != [] {
      AnyInFalse(patterns[1..], v);
    }
  }

  lemma AnyInNotFalse(patterns: seq<string>, v: JVal)
    requires AnyIn(patterns, v) == Ok(false)
    ensures forall k :: 0 <= k < |patterns| ==> PyIn(patterns[k], v) == Ok(false)
  {
    if patterns != [] {
      AnyInNotFalse(patterns[1..], v);
      assert forall k :: 1 <= k < |patterns| ==> patterns[k] == patterns[1..][k - 1];
    }
  }

  /** `validate` answers `{"valid": True}` exactly for the acceptable calls. */
  lemma ValidExactlyWhenAcceptable(call: Object, context: seq<Message>)
    ensures Validate(call, context) == Valid <==> Acceptable(call, context)
  {
    var tool := Get(call, "tool", JNull);
    if tool.JStr? && Lookup(tool.s).Some? {
      ToolAcceptsExactly(Lookup(tool.s).value, call, context);
    }
  }

  lemma ToolAcceptsExactly(t: Tool, call: Object, context: seq<Message>)
    ensures CheckTool(t, call, context) == Valid <==> ToolAccepts(t, call, context)
  {
    if FirstMissing(call, SchemaOf(t).required).None? {
      RequirementsMet(t, call, context);
      SpecificExactly(t, call, context);
    } else {
      var p := FirstMissing(call, SchemaOf(t).required).value;
      assert CheckTool(t, call, context) == MissingParameter(p, Name(t));
    }
  }

  lemma SpecificExactly(t: Tool, call: Object, context: seq<Message>)
    ensures (if ToolCheck(t, call) != Valid then ToolCheck(t, call) else RedundancyCheck(t, call, context)) == Valid
            <==> SpecificAccepts(t, call, context)
  {
    match t
    case Command => CommandAccepts(call);
    case _ =>
  }

  /** The denylist check passes exactly when no fragment is found in the command. */
  lemma CommandAccepts(call: Object)
    ensures ToolCheck(Command, call) == Valid <==>
              forall k :: 0 <= k < |DangerousCommands| ==> PyIn(DangerousCommands[k], Get(call, "command", JStr(""))) == Ok(false)
  {
    var command := Get(call, "command", JStr(""));
    if AnyIn(DangerousCommands, command) == Ok(false) {
      AnyInNotFalse(DangerousCommands, command);
    }
    if forall k :: 0 <= k < |DangerousCommands| ==> PyIn(DangerousCommands[k], command) == Ok(false) {
      AnyInFalse(DangerousCommands, command);
    }
  }

  /** An accepted call names a tool with a schema and carries every parameter that
      schema requires, each with a truthy value. */
  lemma ValidCallIsComplete(call: Object, context: seq<Message>)
    requires Validate(call, context) == Valid
    ensures "tool" in call && call["tool"].JStr? && call["tool"].s in ToolNames
    ensures forall p :: p in SchemaOf(Lookup(call["tool"].s).value).required ==> p in call && !Falsy(call[p])
  {
    ValidExactlyWhenAcceptable(call, context);
  }

  // ---------------------------------------------------------------------------
  // Consequences for particular tools

  /** A truthy tool name without a schema is unknown, whatever else the call holds.
      `get_time`, `vision_analyze` and `monitor_live_feed`, which the agent knows how
      to run, are such names. */
  lemma UnknownToolRejected(call: Object, context: seq<Message>)
    requires Get(call, "tool", JNull).JStr? && Get(call, "tool", JNull).s != ""
    requires Get(call, "tool", JNull).s !in ToolNames
    ensures Validate(call, context) == UnknownTool(Get(call, "tool", JNull).s)
  {
    var tool := Get(call, "tool", JNull);
    assert !Falsy(tool) && Lookup(tool.s).None?;
    assert PyStr(tool) == tool.s;
  }

  lemma DispatchedToolsWithoutSchema()
    ensures Lookup("get_time").None? && Lookup("vision_analyze").None? && Lookup("monitor_live_feed").None?
  {
  }

  /** Once the tool is known, the verdict is that of its own checks. */
  lemma KnownToolChecked(call: Object, context: seq<Message>, t: Tool)
    requires Get(call, "tool", JNull) == JStr(Name(t))
    ensures Validate(call, context) == CheckTool(t, call, context)
  {
    LookupName(t);
  }

  /** The weather tool needs `location`; a call giving only `city` (the parameter the
      agent passes on) is rejected. */
  lemma WeatherNeedsLocation(call: Object, context: seq<Message>)
    requires Get(call, "tool", JNull) == JStr("get_weather") && "location" !in call
    ensures Validate(call, context) == MissingParameter("location", "get_weather")
  {
    KnownToolChecked(call, context, GetWeather);
    assert SchemaOf(GetWeather).required == ["location"];
    assert FirstMissing(call, ["location"]) == Some("location");
  }

  lemma OnlyRequirementMet(call: Object, p: string)
    requires p in call && !Falsy(call[p])
    ensures FirstMissing(call, [p]) == None
  {
    assert [p][1..] == [];
  }

  /** Once the required parameters are there, the verdict is that of the tool's own
      checks and then of the redundancy check. */
  lemma RequirementsMet(t: Tool, call: Object, context: seq<Message>)
    requires FirstMissing(call, SchemaOf(t).required) == None
    ensures CheckTool(t, call, context) ==
              if ToolCheck(t, call) != Valid then ToolCheck(t, call) else RedundancyCheck(t, call, context)
  {
  }

  /** The length checks of a search whose query is a string. */
  lemma SearchLength(call: Object, q: string)
    requires Get(call, "query", JStr("")) == JStr(q)
    ensures ToolCheck(Search, call) ==
              if |q| < 3 then TooShort(|q|)
              else if |q| > 200 then TooLong(|q|)
              else Valid
  {
  }

  /** A search whose string query was mentioned in the last eight messages is redundant. */
  lemma SearchRedundancy(call: Object, context: seq<Message>, q: string)
    requires Get(call, "query", JStr("")) == JStr(q)
    ensures RedundancyCheck(Search, call, context) == if MentionedRecently(q, context) then Redundant else Valid
  {
  }

  /** A search with a non-empty string query: rejected when shorter than 3 or longer
      than 200 characters, then when recently mentioned, accepted otherwise. */
  lemma SearchVerdict(call: Object, context: seq<Message>, q: string)
    requires Get(call, "tool", JNull) == JStr("search") && Get(call, "query", JNull) == JStr(q) && q != ""
    ensures Validate(call, context) ==
              if |q| < 3 then TooShort(|q|)
              else if |q| > 200 then TooLong(|q|)
              else if MentionedRecently(q, context) then Redundant
              else Valid
  {
    KnownToolChecked(call, context, Search);
    assert "query" in call && Get(call, "query", JStr("")) == JStr(q);
    assert SchemaOf(Search).required == ["query"];
    OnlyRequirementMet(call, "query");
    RequirementsMet(Search, call, context);
    SearchLength(call, q);
    SearchRedundancy(call, context, q);
  }

  lemma ShortQueryRejected(context: seq<Message>)
    ensures Validate(map["tool" := JStr("search"), "query" := JStr("ok")], context) == TooShort(2)
  {
    var call := map["tool" := JStr("search"), "query" := JStr("ok")];
    assert Get(call, "tool", JNull) == JStr("search") && Get(call, "query", JNull) == JStr("ok");
    SearchVerdict(call, context, "ok");
  }

  /** The text of the rejection of a two-character query. */
  lemma TooShortText()
    ensures TooShort(2) == Invalid("Query too short (2 chars, need 3+)", "Use more specific search terms")
  {
    assert NatToString(2) == "2";
  }

  lemma QueryAccepted()
    ensures Validate(map["tool" := JStr("search"), "query" := JStr("a valid query")], []) == Valid
  {
    var call := map["tool" := JStr("search"), "query" := JStr("a valid query")];
    SearchVerdict(call, [], "a valid query");
  }

  /** Searching a string never fails. */
  lemma AnyInString(patterns: seq<string>, c: string)
    ensures AnyIn(patterns, JStr(c)).Ok?
  {
    if patterns != [] {
      AnyInString(patterns[1..], c);
    }
  }

  /** The denylist check of a command given as a string. */
  lemma CommandCheck(call: Object, c: string)
    requires Get(call, "command", JStr("")) == JStr(c)
    ensures ToolCheck(Command, call) == Valid <==> forall k :: 0 <= k < |DangerousCommands| ==> !Contains(c, DangerousCommands[k])
    ensures ToolCheck(Command, call) != Valid ==> ToolCheck(Command, call) == Dangerous(c)
  {
    AnyInString(DangerousCommands, c);
    if AnyIn(DangerousCommands, JStr(c)) == Ok(false) {
      AnyInNotFalse(DangerousCommands, JStr(c));
    }
  }

  /** A non-empty string command is rejected exactly when it contains one of the five
      denylisted fragments. */
  lemma CommandVerdict(call: Object, context: seq<Message>, c: string)
    requires Get(call, "tool", JNull) == JStr("command") && Get(call, "command", JNull) == JStr(c) && c != ""
    ensures Validate(call, context) == Valid <==> forall k :: 0 <= k < |DangerousCommands| ==> !Contains(c, DangerousCommands[k])
    ensures Validate(call, context) != Valid ==> Validate(call, context) == Dangerous(c)
  {
    KnownToolChecked(call, context, Command);
    assert "command" in call && Get(call, "command", JStr("")) == JStr(c);
    assert SchemaOf(Command).required == ["command"];
    OnlyRequirementMet(call, "command");
    RequirementsMet(Command, call, context);
    CommandCheck(call, c);
  }

  /** A command that starts with `rm -rf` is rejected, whatever follows. */
  lemma RemovalRejected(call: Object, context: seq<Message>, c: string)
    requires Get(call, "tool", JNull) == JStr("command") && Get(call, "command", JNull) == JStr(c)
    requires StartsWith(c, "rm -rf")
    ensures Validate(call, context) == Dangerous(c)
  {
    assert "command" in call && Get(call, "command", JStr("")) == JStr(c);
    KnownToolChecked(call, context, Command);
    assert SchemaOf(Command).required == ["command"];
    OnlyRequirementMet(call, "command");
    RequirementsMet(Command, call, context);
    assert OccursAt(c, DangerousCommands[0], 0);
    assert AnyIn(DangerousCommands, JStr(c)) == Ok(true);
  }

  /** For the notes, wallet and calendar tools, a string action is accepted exactly
      when it is one of the tool's declared actions. */
  lemma ActionVerdict(call: Object, context: seq<Message>, t: Tool, a: string)
    requires t in {ManageNotes, ManageWallet, ManageCalendar}
    requires Get(call, "tool", JNull) == JStr(Name(t)) && Get(call, "action", JNull) == JStr(a) && a != ""
    ensures Validate(call, context) == Valid <==> a in SchemaOf(t).validActions
    ensures Validate(call, context) != Valid ==>
              Validate(call, context) == Invalid("Invalid action '" + a + "' for " + Name(t),
                                                 "Use one of: " + Join(", ", SchemaOf(t).validActions))
  {
    KnownToolChecked(call, context, t);
    assert "action" in call;
    assert SchemaOf(t).required == ["action"];
    OnlyRequirementMet(call, "action");
    RequirementsMet(t, call, context);
  }

  /** The declared `min_query_length` of the image and video searches, the
      `max_code_length` of the sandbox and the `valid_types` of the OSINT lookup are
      never consulted: once the required parameters are there, those calls pass. */
  lemma DeclaredLimitsUnchecked(call: Object, context: seq<Message>, t: Tool)
    requires t in {ImageSearch, VideoSearch, Sandbox, OsintLookup, GetWeather}
    requires Get(call, "tool", JNull) == JStr(Name(t))
    requires forall p :: p in SchemaOf(t).required ==> p in call && !Falsy(call[p])
    ensures Validate(call, context) == Valid
  {
    KnownToolChecked(call, context, t);
    assert FirstMissing(call, SchemaOf(t).required).None?;
  }

  lemma ShortImageQueryAccepted()
    ensures Validate(map["tool" := JStr("image_search"), "query" := JStr("a")], []) == Valid
  {
    var call := map["tool" := JStr("image_search"), "query" := JStr("a")];
    assert SchemaOf(ImageSearch).required == ["query"];
    DeclaredLimitsUnchecked(call, [], ImageSearch);
  }

  /** Only a search can be redundant: for every other tool the verdict does not depend
      on the conversation. */
  lemma ContextOnlyMattersForSearch(call: Object, c1: seq<Message>, c2: seq<Message>)
    requires Get(call, "tool", JNull) != JStr("search")
    ensures Validate(call, c1) == Validate(call, c2)
  {
  }

  // ---------------------------------------------------------------------------
  // Properties of the URL pattern

  /** Every accepted URL starts with `http://` or `https://`, in any case. */
  lemma UrlHasScheme(u: string)
    requires IsValidUrl(u)
    ensures StartsWith(Lower(u), "http://") || StartsWith(Lower(u), "https://")
  {
    if |u| >= 7 && Lower(u[..7]) == "http://" {
      assert Lower(u)[..7] == Lower(u[..7]);
    } else {
      assert Lower(u)[..8] == Lower(u[..8]);
    }
  }

  lemma DomainUrlAccepted()
    ensures IsValidUrl("https://example.com")
  {
    var u := "https://example.com";
    assert Lower(u[..8]) == "https://";
    var h := u[8..19];
    assert h == "example.com";
    assert Label(h[..7]) && TopLevel(h[8..]);
    assert DomainName(h);
    assert Port(u[19..19]) && TailToEnd(u, 19);
    assert PortThenTail(u, 19);
    assert HostThenRest(u, 8);
  }

  lemma LocalUrlAccepted()
    ensures IsValidUrl("http://localhost:8000/api")
  {
    var u := "http://localhost:8000/api";
    assert Lower(u[..7]) == "http://";
    assert Lower(u[7..16]) == "localhost";
    assert Port(u[16..21]);
    assert Tail(u[21..]);
    assert PortThenTail(u, 16);
    assert HostThenRest(u, 7);
  }

  lemma OtherSchemeRejected()
    ensures !IsValidUrl("ftp://example.com")
  {
    var u := "ftp://example.com";
    assert Lower(u[..7])[0] == 'f';
    assert Lower(u[..8])[0] == 'f';
  }

  lemma SchemeAloneRejected()
    ensures !IsValidUrl("http://")
  {
    var u := "http://";
    assert !DomainName(u[7..7]) && !DottedQuad(u[7..7]);
    assert !HostThenRest(u, 7);
  }
}
