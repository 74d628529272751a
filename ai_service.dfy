/** The agent loop of `ai_service.py`, `get_chat_response_stream`: one user message
    becomes at most ten model calls. Each reply is searched for a JSON action; an
    action goes through the loop detector and then the validator, and a call that
    passes both is run and its result fed back as an observation. A reply without an
    action is the final answer. The stream the client sees is a list of records.

    The model's replies, the tools' results and the clock are inputs: `replies[i]`,
    `outcomes[i]` and `elapsed[i]` are what the model sends, what the tool service
    produces and how many seconds have passed at step `i`. */
module Agent {

  import opened Wrappers
  import opened Text
  import opened Json
  import opened Messages
  import LoopDetection
  import Reflection
  import ContextBuilder
  import Memory
  import opened Cleaning

  // ---------------------------------------------------------------------------
  // The records of the stream and the environment

  /** The "status" of a step_end record: "success" or "error". */
  datatype Status = Success | Failed

  /** One line of the stream, by its "type". */
  datatype Event =
    | Info(content: string)
    | Thought(content: string)
    | StepStart(tool: string, input: string)
    | StepEnd(tool: string, input: string, output: string, status: Status)
    | Final(content: string)
    | Error(content: string)

  /** A record after which the stream ends. */
  predicate Terminal(e: Event) { e.Final? || e.Error? }

  /** What one request to the chat completions API gives: an HTTP status with the
      message content of the first choice, or an exception with its text. */
  datatype Reply = Response(code: int, content: string) | RequestFailed(message: string)

  /** What the service a tool call is dispatched to gives: a text, or an exception. */
  datatype ToolOutcome = Returned(output: string) | ToolRaised(message: string)

  const MaxSteps: nat := 10
  const TimeoutSeconds: real := 60.0
  const MaxHistory: nat := 12
  const MaxRepeats: nat := 2
  const MaxTokens: nat := 30000

  const InitText: string := "Eveline initializing context & neural memory..."
  const MissingKeyText: string := "MISTRAL_API_KEY is missing"
  const TimeoutText: string := "⏱️ Timeout de recherche. " + "Voici ma synthèse actuelle."
  const AlertText: string := "SYSTEM ALERT: You announced an action " + "but forgot the JSON tool call. "
                             + "DO NOT TALK. USE THE TOOL NOW."

  function ApiErrorText(code: int): string { "\U{1F310} API Error " + IntToString(code) }

  function ConnectionErrorText(message: string): string { "\U{1F310} Connection Error: " + message }

  function LoopText(reason: string): string {
    "SYSTEM: Loop detected (" + reason + "). " + "Provide final answer with current info."
  }

  function ValidationText(reason: string, suggestion: string): string {
    "VALIDATION ERROR: " + reason + ". " + suggestion
  }

  function ToolErrorText(message: string): string {
    "[TOOL_ERROR] Execution Failed: " + message + ". "
    + "Please analyze this error and retry or adapt your plan."
  }

  function NotImplementedText(name: string): string { "Tool " + name + " not implemented yet." }

  function SystemErrorText(error: string): string { "SYSTEM_ERROR: " + error }

  function ObservationText(output: string): string { "OBSERVATION: " + CleanResultForAi(output) }

  // ---------------------------------------------------------------------------
  // Finding the action in a reply

  /** `re.search(r'(\{.*?\})', content, re.DOTALL)`: the text from the first '{' to
      the first '}' after it. */
  function ExtractSpan(content: string): Option<string> {
    match FindFrom(content, "{", 0)
    case None => None
    case Some(i) =>
      match FindFrom(content, "}", i + 1)
      case None => None
      case Some(j) => Some(content[i..j + 1])
  }

  /** The span opens with '{', and its last character is its only '}'. */
  lemma SpanShape(content: string)
    requires ExtractSpan(content).Some?
    ensures var span := ExtractSpan(content).value;
      |span| >= 2 && span[0] == '{' && span[|span| - 1] == '}'
      && forall p :: 0 <= p < |span| - 1 ==> span[p] != '}'
  {
    var i := FindFrom(content, "{", 0).value;
    var j := FindFrom(content, "}", i + 1).value;
    var span := content[i..j + 1];
    assert content[i] == content[i..i + 1][0];
    assert content[j] == content[j..j + 1][0];
    forall p | 0 <= p < |span| - 1 ensures span[p] != '}' {
      if p > 0 {
        assert !OccursAt(content, "}", i + p);
        assert content[i + p..i + p + 1] == [content[i + p]];
      }
    }
  }

  const NoteActions: seq<string> := ["create", "update", "delete", "search", "categories"]
  const WalletActions: seq<string> := ["balance", "history", "prepare_transfer"]

  /** The fallback tool name: a call with an "action" but no "tool" is taken for a
      notes call or a wallet call when the action is one of theirs. */
  function InferTool(call: Object): (r: Object)
    ensures forall k :: k in call ==> k in r && r[k] == call[k]
    ensures forall k :: k in r ==> k in call || k == "tool"
    ensures "tool" in call ==> r == call
    ensures "tool" !in call ==>
              ("tool" in r <==> "action" in call && call["action"].JStr?
                                && (call["action"].s in NoteActions || call["action"].s in WalletActions))
    ensures "tool" in r && "tool" !in call ==>
              r["tool"] == JStr(if call["action"].s in NoteActions then "manage_notes" else "manage_wallet")
              && r["tool"].s in Reflection.ToolNames
  {
    if "tool" !in call && "action" in call then
      var action := call["action"];
      if action.JStr? && action.s in NoteActions then call["tool" := JStr("manage_notes")]
      else if action.JStr? && action.s in WalletActions then call["tool" := JStr("manage_wallet")]
      else call
    else call
  }

  /** The decoded call of a reply, with its tool name filled in; `None` when there is
      no span or the span is not valid JSON. */
  function ParseCall(content: string): Option<Object> {
    match ExtractSpan(content)
    case None => None
    case Some(span) =>
      match Loads(span)
      case Some(JObj(members)) => Some(InferTool(ToMap(members)))
      case _ => None
  }

  /** `not tool_call`: no call, or an empty dictionary. */
  predicate NoCall(call: Option<Object>) { call.None? || call.value == map[] }

  lemma {:induction false} FlatMembers(members: seq<(string, JVal)>)
    requires forall k :: 0 <= k < |members| ==> !HasObj(members[k].1)
    ensures forall key :: key in ToMap(members) ==> !HasObj(ToMap(members)[key])
  {
    if members != [] {
      FlatMembers(members[..|members| - 1]);
    }
  }

  /** A decoded call never carries an object, at any depth: the span ends at the first
      '}', so a nested object cuts it short and it does not decode. */
  lemma CallIsFlat(content: string)
    requires ParseCall(content).Some?
    ensures forall key :: key in ParseCall(content).value ==> !HasObj(ParseCall(content).value[key])
  {
    SpanShape(content);
    var span := ExtractSpan(content).value;
    SingleCloserIsFlat(span);
    FlatMembers(Loads(span).value.members);
  }

  // ---------------------------------------------------------------------------
  // Anti-chatter and the displayed input

  const Intents: seq<string> := ["je vais", "i will", "recherche", "let me", "checking"]
  const Hints: seq<string> := ["search", "recherche", "note", "scrape", "image", "wallet"]

  /** `any(w in s for w in words)` */
  function AnyContains(s: string, words: seq<string>): (b: bool)
    ensures b <==> exists k :: 0 <= k < |words| && Contains(s, words[k])
  {
    if words == [] then false
    else Contains(s, words[0]) || AnyContains(s, words[1..])
  }

  /** A reply that announces an action instead of calling it: it states an intent and
      names a tool in lower case, and is shorter than 250 characters. */
  predicate Announces(content: string) {
    var lower := Lower(content);
    AnyContains(lower, Intents) && AnyContains(lower, Hints) && |content| < 250
  }

  /** `call.get(key)` is truthy. */
  predicate Truthy(call: Object, key: string) {
    key in call && !Falsy(call[key])
  }

  /** `str(a or b or ...)` over the values of `keys`, with "Processing..." last: the
      text of the first truthy value, or "Processing..." when none is truthy. */
  function FirstTruthy(call: Object, keys: seq<string>): (r: string)
    ensures (forall k :: 0 <= k < |keys| ==> !Truthy(call, keys[k])) ==> r == "Processing..."
    ensures forall k :: (0 <= k < |keys| && Truthy(call, keys[k])
                         && forall j :: 0 <= j < k ==> !Truthy(call, keys[j])) ==> r == PyStr(call[keys[k]])
  {
    if keys == [] then "Processing..."
    else
      var v := Get(call, keys[0], JNull);
      if !Falsy(v) then PyStr(v)
      else
        assert forall k :: 1 <= k < |keys| ==> keys[k] == keys[1..][k - 1];
        FirstTruthy(call, keys[1..])
  }

  /** The "input" shown in the step records. */
  function DisplayInput(call: Object): string {
    FirstTruthy(call, ["query", "url", "action", "command"])
  }

  // ---------------------------------------------------------------------------
  // The final answer

  const Marker: string := "Final Answer:"

  /** A text that opens with "Thought:", in any letter case. */
  predicate OpensWithThought(s: string) {
    |s| >= 8 && Lower(s[..8]) == "thought:"
  }

  /** `re.sub(r'(?i)^Thought:.*?\n', '', s)`: a leading "Thought:" in any case, up to
      and with the first line break after it, is removed; a text that does not open
      with it, or has no line break after it, is kept whole. */
  function DropThought(s: string): (r: string)
    ensures |r| <= |s| && r == s[|s| - |r|..]
    ensures forall j :: (OpensWithThought(s) && 8 <= j < |s| && s[j] == '\n'
                         && forall q :: 8 <= q < j ==> s[q] != '\n') ==> r == s[j + 1..]
    ensures (!OpensWithThought(s) || forall q :: 8 <= q < |s| ==> s[q] != '\n') ==> r == s
  {
    if OpensWithThought(s) then
      match FindFrom(s, "\n", 8)
      case Some(j) =>
        NewlineAt(s, j);
        assert forall q :: 8 <= q < j ==> s[q] != '\n' by {
          forall q | 8 <= q < j ensures s[q] != '\n' { NewlineAt(s, q); }
        }
        s[j + 1..]
      case None =>
        assert forall q :: 8 <= q < |s| ==> s[q] != '\n' by {
          forall q | 8 <= q < |s| ensures s[q] != '\n' { NewlineAt(s, q); }
        }
        s
    else s
  }

  /** A one-character text occurs exactly where that character is. */
  lemma NewlineAt(s: string, j: int)
    requires 0 <= j < |s|
    ensures OccursAt(s, "\n", j) <==> s[j] == '\n'
  {
    assert s[j..j + 1] == [s[j]];
  }

  /** The text of the final record: what follows the last "Final Answer:" if there
      is one, without a leading thought line, stripped. */
  function FinalText(content: string): string {
    var answer := if Contains(content, Marker) then Strip(LastPiece(content, Marker)) else content;
    Strip(DropThought(answer))
  }

  lemma SliceOfLacks(s: string, t: string, r: string, i: int, j: int)
    requires !Contains(s, t) && 0 <= i <= j <= |s| && r == s[i..j]
    ensures !Contains(r, t)
  {
    SliceLacks(s, t, i, j);
  }

  /** Stripping only ever cuts a text. */
  lemma StripKeepsOut(s: string, t: string)
    requires !Contains(s, t)
    ensures !Contains(Strip(s), t)
  {
    var a := |s| - |LStrip(s)|;
    SliceOfLacks(s, t, Strip(s), a, a + |Strip(s)|);
  }

  /** Dropping a thought line only ever cuts a text. */
  lemma DropKeepsOut(s: string, t: string)
    requires !Contains(s, t)
    ensures !Contains(DropThought(s), t)
  {
    var d := DropThought(s);
    SliceOfLacks(s, t, d, |s| - |d|, |s|);
  }

  /** The answer never holds the marker and has no surrounding white space. */
  lemma FinalTextClean(content: string)
    ensures var r := FinalText(content);
      !Contains(r, Marker) && (r == [] || (!IsSpace(r[0]) && !IsSpace(r[|r| - 1])))
  {
    var answer := if Contains(content, Marker) then Strip(LastPiece(content, Marker)) else content;
    assert !Contains(answer, Marker) by {
      if Contains(content, Marker) {
        StripKeepsOut(LastPiece(content, Marker), Marker);
      }
    }
    DropKeepsOut(answer, Marker);
    StripKeepsOut(DropThought(answer), Marker);
  }

  /** A reply without the marker and without a leading thought line is the answer as
      it stands, stripped. */
  lemma PlainReplyIsAnswer(content: string)
    requires !Contains(content, Marker)
    requires !OpensWithThought(content)
    ensures FinalText(content) == Strip(content)
  {
  }

  // ---------------------------------------------------------------------------
  // Running a tool

  /** The tool names the dispatch chain has a branch for. */
  predicate IsDispatched(name: string) {
    name == "search" || name == "scrape" || name == "sandbox" || name == "command"
    || name == "manage_notes" || name == "manage_wallet" || name == "manage_calendar"
    || name == "image_search" || name == "vision_analyze" || name == "osint_lookup"
    || name == "monitor_live_feed" || name == "get_time" || name == "get_weather"
  }

  /** The actions the branch of a `manage_*` tool has a case for (the notes branch
      has one for each of `NoteActions`, the wallet branch for each of
      `WalletActions`). */
  function BranchActions(name: string): seq<string> {
    if name == "manage_notes" then NoteActions
    else if name == "manage_wallet" then WalletActions
    else if name == "manage_calendar" then ["list", "add"]
    else []
  }

  /** A `manage_*` call whose action has no case: its branch calls no service and the
      result keeps its initial value, the empty text with the status "success". */
  predicate RunsNothing(name: string, action: JVal) {
    (name == "manage_notes" || name == "manage_wallet" || name == "manage_calendar")
    && !(action.JStr? && action.s in BranchActions(name))
  }

  /** The output and status of the step_end record for a tool name and the call's
      "action". */
  function Execute(name: string, action: JVal, outcome: ToolOutcome): (r: (string, Status))
    ensures r.1 == Success <==> IsDispatched(name) && (RunsNothing(name, action) || outcome.Returned?)
    ensures RunsNothing(name, action) ==> r == ("", Success)
    ensures !RunsNothing(name, action) && r.1 == Success ==> r.0 == outcome.output
  {
    if !IsDispatched(name) then (NotImplementedText(name), Failed)
    else if RunsNothing(name, action) then ("", Success)
    else match outcome
      case Returned(output) => (output, Success)
      case ToolRaised(message) => (ToolErrorText(message), Failed)
  }

  /** Of the tools validation knows, only "video_search" has no branch: a validated
      video search is always answered "not implemented". */
  lemma OnlyVideoSearchUndispatched(t: Reflection.Tool)
    ensures IsDispatched(Reflection.Name(t)) <==> t != Reflection.VideoSearch
  {
  }

  /** Of the calls validation accepts, exactly the calendar calls to "remove" and to
      "update" run nothing: every notes and wallet action it accepts has a case. */
  lemma AcceptedCallRunsNothing(call: Object, context: seq<Message>)
    requires Reflection.Acceptable(call, context)
    ensures "tool" in call && call["tool"].JStr?
    ensures var action := Get(call, "action", JNull);
      RunsNothing(call["tool"].s, action)
      <==> call["tool"].s == "manage_calendar" && (action == JStr("remove") || action == JStr("update"))
  {
    var t := Reflection.CalledTool(call).value;
    assert Reflection.Name(t) == call["tool"].s;
    var action := Get(call, "action", JNull);
    match t
    case ManageNotes => assert action.JStr? && action.s in Reflection.SchemaOf(t).validActions;
    case ManageWallet => assert action.JStr? && action.s in Reflection.SchemaOf(t).validActions;
    case ManageCalendar => assert action.JStr? && action.s in Reflection.SchemaOf(t).validActions;
    case _ =>
  }

  // ---------------------------------------------------------------------------
  // One step of the loop

  /** What the loop has built so far: the messages for the next request, the loop
      detector's state, the records streamed, whether the stream has ended, and the
      final answer once there is one. */
  datatype Progress = Progress(
    context: seq<Message>,
    detector: LoopDetection.DetectorState<Object>,
    events: seq<Event>,
    done: bool,
    answer: Option<string>)

  /** What one step does: the records it streams, the messages it adds to the context,
      the detector's new state, whether the stream ends, and the answer it gives. */
  datatype Effect = Effect(
    records: seq<Event>,
    messages: seq<Message>,
    detector: LoopDetection.DetectorState<Object>,
    done: bool,
    answer: Option<string>)

  /** What one step adds to the stream: a terminal record; a thought, with or without
      a terminal record; or a thought and the two records of a tool run. */
  predicate Chunk(x: seq<Event>, done: bool) {
    if done then
      (|x| == 1 && Terminal(x[0])) || (|x| == 2 && x[0].Thought? && Terminal(x[1]))
    else
      (|x| == 1 && x[0].Thought?)
      || (|x| == 3 && x[0].Thought? && x[1].StepStart? && x[2].StepEnd?
          && x[2].tool == x[1].tool && x[2].input == x[1].input)
  }

  /** The effect adds a chunk, and an answer comes only with its own final record. */
  predicate WellFormed(e: Effect) {
    Chunk(e.records, e.done)
    && (e.answer.Some? ==> e.done && e.records[|e.records| - 1] == Final(e.answer.value))
  }

  function Apply(p: Progress, e: Effect): Progress {
    Progress(p.context + e.messages, e.detector, p.events + e.records, e.done, e.answer)
  }

  /** The reply goes back into the context, followed by a note for the model. */
  function Reinstruct(content: string, note: string): seq<Message> {
    [Message("assistant", content), Message("user", note)]
  }

  /** One pass of the `for step_i in range(max_steps)` body: the clock, the request,
      then what the reply asks for. */
  function StepEffect(context: seq<Message>, detector: LoopDetection.DetectorState<Object>,
                      elapsed: real, reply: Reply, outcome: ToolOutcome): (e: Effect)
    ensures WellFormed(e)
    ensures e.records[0].Thought? <==> !(elapsed > TimeoutSeconds) && reply.Response? && reply.code == 200
  {
    if elapsed > TimeoutSeconds then Effect([Final(TimeoutText)], [], detector, true, None)
    else match reply
      case RequestFailed(message) => Effect([Error(ConnectionErrorText(message))], [], detector, true, None)
      case Response(code, content) =>
        if code != 200 then Effect([Error(ApiErrorText(code))], [], detector, true, None)
        else ReplyEffect(context, detector, content, outcome)
  }

  function Step(p: Progress, elapsed: real, reply: Reply, outcome: ToolOutcome): Progress {
    Apply(p, StepEffect(p.context, p.detector, elapsed, reply, outcome))
  }

  /** What a reply leads to once it has come: a nudge when it only announces an
      action, the gates when it holds a call with a tool, the final answer otherwise. */
  function ReplyEffect(context: seq<Message>, detector: LoopDetection.DetectorState<Object>,
                       content: string, outcome: ToolOutcome): (e: Effect)
    ensures WellFormed(e) && e.records[0] == Thought(content)
  {
    var call := ParseCall(content);
    if NoCall(call) && Announces(content) then
      Effect([Thought(content)], Reinstruct(content, AlertText), detector, false, None)
    else if call.Some? && "tool" in call.value then GateEffect(context, detector, content, call.value, outcome)
    else
      var text := FinalText(content);
      Effect([Thought(content), Final(text)], [], detector, true, Some(text))
  }

  /** The loop detector first, then the validator; a call that passes both is run. */
  function GateEffect(context: seq<Message>, detector: LoopDetection.DetectorState<Object>,
                      content: string, call: Object, outcome: ToolOutcome): (e: Effect)
    requires "tool" in call
    ensures WellFormed(e) && e.records[0] == Thought(content) && e.answer.None?
  {
    var (flag, checked) := LoopDetection.CheckStep(detector, MaxHistory, MaxRepeats, call);
    if flag.Some? then
      Effect([Thought(content)], Reinstruct(content, LoopText(LoopDetection.ReasonText(flag.value))),
             checked, false, None)
    else match Reflection.Validate(call, context)
      case Raises(error) => Effect([Thought(content), Error(SystemErrorText(error))], [], checked, true, None)
      case Invalid(reason, suggestion) =>
        Effect([Thought(content)], Reinstruct(content, ValidationText(reason, suggestion)), checked, false, None)
      case Valid => RunEffect(content, call, outcome, checked)
  }

  /** The step records of a run and the observation fed back to the model. */
  function RunEffect(content: string, call: Object, outcome: ToolOutcome,
                     detector: LoopDetection.DetectorState<Object>): (e: Effect)
    requires "tool" in call
    ensures WellFormed(e) && !e.done && |e.records| == 3 && e.records[0] == Thought(content)
  {
    var name := PyStr(call["tool"]);
    var input := DisplayInput(call);
    var (output, status) := Execute(name, Get(call, "action", JNull), outcome);
    Effect([Thought(content), StepStart(Upper(name), input), StepEnd(Upper(name), input, output, status)],
           Reinstruct(content, ObservationText(output)), detector, false, None)
  }

  // ---------------------------------------------------------------------------
  // The whole turn

  /** The inputs of the ten steps: one entry per step. */
  predicate Inputs(elapsed: seq<real>, replies: seq<Reply>, outcomes: seq<ToolOutcome>) {
    |elapsed| == MaxSteps && |replies| == MaxSteps && |outcomes| == MaxSteps
  }

  /** Steps `k` and on, until the stream ends or the ten steps are used up. */
  function Run(p: Progress, k: nat, elapsed: seq<real>, replies: seq<Reply>, outcomes: seq<ToolOutcome>): Progress
    requires k <= MaxSteps && Inputs(elapsed, replies, outcomes)
    decreases MaxSteps - k
  {
    if p.done || k == MaxSteps then p
    else Run(Step(p, elapsed[k], replies[k], outcomes[k]), k + 1, elapsed, replies, outcomes)
  }

  /** The state the loop starts from: the info record is out. */
  function Start(context: seq<Message>): Progress {
    Progress(context, LoopDetection.DetectorState([], map[]), [Info(InitText)], false, None)
  }

  /** `get_chat_response_stream` for one message: the info record, then either the
      missing-key error or the loop over the cleaned, budgeted context. */
  function Turn(message: string, apiKeyPresent: bool, systemPrompt: string, history: seq<Object>,
                systemInfo: seq<(string, JVal)>, elapsed: seq<real>, replies: seq<Reply>,
                outcomes: seq<ToolOutcome>): Progress
    requires Inputs(elapsed, replies, outcomes)
  {
    if !apiKeyPresent then Start([]).(events := [Info(InitText), Error(MissingKeyText)], done := true)
    else
      var context := Cleaned(ContextBuilder.Layout(MaxTokens, systemPrompt, message, history, systemInfo));
      Run(Start(context), 0, elapsed, replies, outcomes)
  }

  // ---------------------------------------------------------------------------
  // The form of the stream

  /** The number of thought records, i.e. of answered requests. */
  function Thoughts(events: seq<Event>): nat {
    if events == [] then 0
    else Thoughts(events[..|events| - 1]) + (if events[|events| - 1].Thought? then 1 else 0)
  }

  /** Every stream starts with the one info record; a terminal record is the last one
      and is there exactly when the stream has ended; every step_start follows a
      thought and is followed by its step_end, with the same tool and input; and a
      stored answer is the text of the final record. */
  predicate Shaped(p: Progress) {
    var ev := p.events;
    |ev| >= 1 && ev[0] == Info(InitText)
    && (forall k :: 1 <= k < |ev| ==> !ev[k].Info?)
    && (forall k :: 0 <= k < |ev| - 1 ==> !Terminal(ev[k]))
    && (p.done <==> Terminal(ev[|ev| - 1]))
    && (forall k :: 0 <= k < |ev| && ev[k].StepStart? ==>
          1 <= k && ev[k - 1].Thought? && k + 1 < |ev| && ev[k + 1].StepEnd?
          && ev[k + 1].tool == ev[k].tool && ev[k + 1].input == ev[k].input)
    && (forall k :: 1 <= k < |ev| && ev[k].StepEnd? ==> ev[k - 1].StepStart?)
    && (p.answer.Some? ==> ev[|ev| - 1] == Final(p.answer.value))
  }

  lemma {:induction false} ThoughtsAppend(a: seq<Event>, b: seq<Event>)
    ensures Thoughts(a + b) == Thoughts(a) + Thoughts(b)
    decreases |b|
  {
    if b == [] {
      assert a + b == a;
    } else {
      var front := b[..|b| - 1];
      assert (a + b)[..|a + b| - 1] == a + front;
      ThoughtsAppend(a, front);
    }
  }

  /** A thought alone keeps a running stream shaped. */
  lemma AppendThought(p: Progress, q: Progress, c: string)
    requires Shaped(p) && !p.done
    requires q.events == p.events + [Thought(c)] && !q.done && q.answer.None?
    ensures Shaped(q)
  {
    assert !Terminal(p.events[|p.events| - 1]);
  }

  /** A thought and a tool run's two records keep a running stream shaped. */
  lemma AppendRun(p: Progress, q: Progress, x: seq<Event>)
    requires Shaped(p) && !p.done
    requires |x| == 3 && x[0].Thought? && x[1].StepStart? && x[2].StepEnd?
    requires x[2].tool == x[1].tool && x[2].input == x[1].input
    requires q.events == p.events + x && !q.done && q.answer.None?
    ensures Shaped(q)
  {
    var n := |p.events|;
    var ev := q.events;
    assert !Terminal(p.events[n - 1]);
    assert ev[n] == x[0] && ev[n + 1] == x[1] && ev[n + 2] == x[2];
    forall k | 0 <= k < |ev| && ev[k].StepStart?
      ensures 1 <= k && ev[k - 1].Thought? && k + 1 < |ev| && ev[k + 1].StepEnd?
              && ev[k + 1].tool == ev[k].tool && ev[k + 1].input == ev[k].input
    {
      if k < n {
        assert ev[k] == p.events[k];
      }
    }
  }

  /** A terminal record ends a running stream in shape. */
  lemma AppendTerminal(p: Progress, q: Progress, t: Event)
    requires Shaped(p) && !p.done && Terminal(t)
    requires q.events == p.events + [t] && q.done
    requires q.answer.Some? ==> t == Final(q.answer.value)
    ensures Shaped(q)
  {
    var n := |p.events|;
    assert !Terminal(p.events[n - 1]);
    assert forall k :: 0 <= k < n ==> q.events[k] == p.events[k];
  }

  /** A terminal record, after a thought or not, ends a running stream in shape. */
  lemma AppendEnd(p: Progress, q: Progress, x: seq<Event>)
    requires Shaped(p) && !p.done
    requires (|x| == 1 && Terminal(x[0])) || (|x| == 2 && x[0].Thought? && Terminal(x[1]))
    requires q.events == p.events + x && q.done
    requires q.answer.Some? ==> x[|x| - 1] == Final(q.answer.value)
    ensures Shaped(q)
  {
    if |x| == 1 {
      AppendTerminal(p, q, x[0]);
    } else {
      var r := p.(events := p.events + [x[0]], answer := None);
      AppendThought(p, r, x[0].content);
      assert q.events == r.events + [x[1]];
      AppendTerminal(r, q, x[1]);
    }
  }

  /** The records of a step: at most one thought, and exactly one when the stream goes
      on. */
  lemma ChunkThoughts(x: seq<Event>, done: bool)
    requires Chunk(x, done)
    ensures Thoughts(x) <= 1
    ensures !done ==> Thoughts(x) == 1
  {
    if |x| == 1 {
      assert x[..0] == [];
    } else if |x| == 2 {
      assert x[..1][..0] == [];
    } else {
      assert x[..2][..1] == x[..1] && x[..1][..0] == [];
      assert Thoughts(x[..1]) == 1;
      assert Thoughts(x[..2]) == 1;
    }
  }

  /** A step of a running loop keeps the stream shaped and adds at most one thought,
      and exactly one when the stream goes on. */
  lemma ApplyShaped(p: Progress, e: Effect)
    requires Shaped(p) && !p.done && WellFormed(e)
    ensures Shaped(Apply(p, e))
    ensures Thoughts(Apply(p, e).events) <= Thoughts(p.events) + 1
    ensures !e.done ==> Thoughts(Apply(p, e).events) == Thoughts(p.events) + 1
  {
    var q := Apply(p, e);
    ThoughtsAppend(p.events, e.records);
    ChunkThoughts(e.records, e.done);
    if e.done {
      AppendEnd(p, q, e.records);
    } else if |e.records| == 1 {
      AppendThought(p, q, e.records[0].content);
    } else {
      AppendRun(p, q, e.records);
    }
  }

  /** The remaining steps keep the stream shaped, and there are never more than ten
      thoughts; a stream that has not ended after them has exactly ten. */
  lemma {:induction false} RunShaped(p: Progress, k: nat, elapsed: seq<real>, replies: seq<Reply>,
                                     outcomes: seq<ToolOutcome>)
    requires k <= MaxSteps && Inputs(elapsed, replies, outcomes)
    requires Shaped(p) && Thoughts(p.events) <= k
    requires !p.done ==> Thoughts(p.events) == k
    ensures Shaped(Run(p, k, elapsed, replies, outcomes))
    ensures Thoughts(Run(p, k, elapsed, replies, outcomes).events) <= MaxSteps
    ensures !Run(p, k, elapsed, replies, outcomes).done ==> Thoughts(Run(p, k, elapsed, replies, outcomes).events) == MaxSteps
    decreases MaxSteps - k
  {
    if !p.done && k < MaxSteps {
      var e := StepEffect(p.context, p.detector, elapsed[k], replies[k], outcomes[k]);
      ApplyShaped(p, e);
      RunShaped(Apply(p, e), k + 1, elapsed, replies, outcomes);
    }
  }

  /** The stream of a turn has the shape above and at most ten thought records, so at
      most ten replies were used; a stream without a final or error record is one
      whose ten steps were all used, each with a reply streamed as a thought. */
  lemma TurnShaped(message: string, apiKeyPresent: bool, systemPrompt: string, history: seq<Object>,
                   systemInfo: seq<(string, JVal)>, elapsed: seq<real>, replies: seq<Reply>,
                   outcomes: seq<ToolOutcome>)
    requires Inputs(elapsed, replies, outcomes)
    ensures var t := Turn(message, apiKeyPresent, systemPrompt, history, systemInfo, elapsed, replies, outcomes);
      Shaped(t) && Thoughts(t.events) <= MaxSteps
      && (!t.done ==> apiKeyPresent && Thoughts(t.events) == MaxSteps)
  {
    if apiKeyPresent {
      var context := Cleaned(ContextBuilder.Layout(MaxTokens, systemPrompt, message, history, systemInfo));
      assert Thoughts([Info(InitText)]) == 0 by {
        assert [Info(InitText)][..0] == [];
      }
      RunShaped(Start(context), 0, elapsed, replies, outcomes);
    } else {
      MissingKeyShaped();
    }
  }

  lemma MissingKeyShaped()
    ensures var p := Start([]).(events := [Info(InitText), Error(MissingKeyText)], done := true);
      Shaped(p) && Thoughts(p.events) == 0
  {
    var ev := [Info(InitText), Error(MissingKeyText)];
    assert ev[..1] == [Info(InitText)] && ev[..1][..0] == [];
    assert Thoughts(ev[..1]) == 0;
  }

  // ---------------------------------------------------------------------------
  // What a step does

  /** Past sixty seconds the step streams the timeout text as a final record, and no
      answer is kept for the memory. */
  lemma TimeoutEndsStep(context: seq<Message>, detector: LoopDetection.DetectorState<Object>,
                        elapsed: real, reply: Reply, outcome: ToolOutcome)
    requires elapsed > TimeoutSeconds
    ensures var e := StepEffect(context, detector, elapsed, reply, outcome);
      e.records == [Final(TimeoutText)] && e.done && e.answer.None? && e.messages == []
  {
  }

  /** A request that fails or does not answer 200 ends the stream with an error. */
  lemma FailedRequestEndsStep(context: seq<Message>, detector: LoopDetection.DetectorState<Object>,
                              elapsed: real, reply: Reply, outcome: ToolOutcome)
    requires !(elapsed > TimeoutSeconds) && !(reply.Response? && reply.code == 200)
    ensures var e := StepEffect(context, detector, elapsed, reply, outcome);
      |e.records| == 1 && e.records[0].Error? && e.done && e.answer.None? && e.messages == []
  {
  }

  /** A reply that announces an action without a call is sent back with the alert; it
      is never taken for the final answer. */
  lemma AnnouncementNudged(context: seq<Message>, detector: LoopDetection.DetectorState<Object>,
                         content: string, outcome: ToolOutcome)
    ensures var e := ReplyEffect(context, detector, content, outcome);
      NoCall(ParseCall(content)) && Announces(content) ==>
        e.records == [Thought(content)] && !e.done && e.answer.None?
        && e.messages == Reinstruct(content, AlertText) && e.detector == detector
  {
  }

  /** A reply ends in an answer exactly when it is no bare announcement and holds no
      call with a tool; the answer is then the reply's final text, which never holds
      the marker. */
  lemma AnswerExactly(context: seq<Message>, detector: LoopDetection.DetectorState<Object>,
                         content: string, outcome: ToolOutcome)
    ensures var e := ReplyEffect(context, detector, content, outcome);
      var call := ParseCall(content);
      (e.answer.Some? <==> !(NoCall(call) && Announces(content)) && !(call.Some? && "tool" in call.value))
      && (e.answer.Some? ==> e.answer.value == FinalText(content) && !Contains(e.answer.value, Marker))
  {
    FinalTextClean(content);
  }

  /** A call the loop detector flags is neither validated nor run: only the thought is
      streamed, the reply goes back with the loop note, the detector keeps what the
      check left, and the step is the same whatever the context and whatever the tool
      would give. */
  lemma FlaggedCallSkipsValidation(context: seq<Message>, detector: LoopDetection.DetectorState<Object>,
                         content: string, call: Object, outcome: ToolOutcome,
                                   otherContext: seq<Message>, otherOutcome: ToolOutcome)
    requires "tool" in call
    requires LoopDetection.CheckStep(detector, MaxHistory, MaxRepeats, call).0.Some?
    ensures GateEffect(context, detector, content, call, outcome)
            == GateEffect(otherContext, detector, content, call, otherOutcome)
    ensures var e := GateEffect(context, detector, content, call, outcome);
      var (flag, checked) := LoopDetection.CheckStep(detector, MaxHistory, MaxRepeats, call);
      e.records == [Thought(content)] && !e.done && e.answer.None?
      && e.messages == Reinstruct(content, LoopText(LoopDetection.ReasonText(flag.value)))
      && e.detector == checked
  {
  }

  /** A call the validator rejects is not run: only the thought is streamed, the reply
      goes back with the validation error, and the call still counts for the loop
      detector. */
  lemma RejectedCallNotRun(context: seq<Message>, detector: LoopDetection.DetectorState<Object>,
                         content: string, call: Object, outcome: ToolOutcome,
                           otherOutcome: ToolOutcome)
    requires "tool" in call
    requires LoopDetection.CheckStep(detector, MaxHistory, MaxRepeats, call).0.None?
    requires Reflection.Validate(call, context).Invalid?
    ensures var e := GateEffect(context, detector, content, call, outcome);
      var v := Reflection.Validate(call, context);
      e == GateEffect(context, detector, content, call, otherOutcome)
      && e.records == [Thought(content)] && !e.done && e.answer.None?
      && e.messages == Reinstruct(content, ValidationText(v.reason, v.suggestion))
      && e.detector == LoopDetection.CheckStep(detector, MaxHistory, MaxRepeats, call).1
  {
  }

  /** Only a call that passes the loop detector and is acceptable to the validator is
      run, and it names a tool the validator knows. */
  lemma OnlyAcceptedCallsRun(context: seq<Message>, detector: LoopDetection.DetectorState<Object>,
                         content: string, call: Object, outcome: ToolOutcome)
    requires "tool" in call
    ensures var records := GateEffect(context, detector, content, call, outcome).records;
      |records| == 3 ==>
        LoopDetection.CheckStep(detector, MaxHistory, MaxRepeats, call).0.None?
        && Reflection.Acceptable(call, context)
        && call["tool"].JStr? && call["tool"].s in Reflection.ToolNames
        && records[1] == StepStart(Upper(call["tool"].s), DisplayInput(call))
  {
    if |GateEffect(context, detector, content, call, outcome).records| == 3 {
      Reflection.ValidExactlyWhenAcceptable(call, context);
      Reflection.ValidCallIsComplete(call, context);
    }
  }

  /** A run reports success exactly when the tool has a branch and returned; the model
      then sees the tool's own text, cleaned; otherwise it sees the error text. */
  lemma ToolRunObserved(content: string, call: Object, outcome: ToolOutcome,
                        detector: LoopDetection.DetectorState<Object>)
    requires "tool" in call
    ensures var e := RunEffect(content, call, outcome, detector);
      var output := e.records[2].output;
      var name := PyStr(call["tool"]);
      var action := Get(call, "action", JNull);
      (e.records[2].status == Success <==> IsDispatched(name) && (RunsNothing(name, action) || outcome.Returned?))
      && (RunsNothing(name, action) ==> output == "" && e.records[2].status == Success)
      && (!RunsNothing(name, action) && e.records[2].status == Success ==> output == outcome.output)
      && e.messages == Reinstruct(content, ObservationText(output))
  {
  }

  // ---------------------------------------------------------------------------
  // The loop itself, on a live detector and a live memory store

  /** The gates of one call, with the detector's history updated in place. */
  method Gate(detector: LoopDetection.LoopDetector<Object>, context: seq<Message>, content: string,
              call: Object, outcome: ToolOutcome) returns (e: Effect)
    requires "tool" in call
    requires detector.Valid() && detector.maxHistory == MaxHistory && detector.maxRepeats == MaxRepeats
    modifies detector
    ensures detector.Valid() && detector.State() == e.detector
    ensures e == GateEffect(context, old(detector.State()), content, call, outcome)
  {
    var flag := detector.Check(call);
    if flag.Some? {
      var reason := LoopDetection.ReasonText(flag.value);
      return Effect([Thought(content)], Reinstruct(content, LoopText(reason)), detector.State(), false, None);
    }
    match Reflection.Validate(call, context)
    case Raises(error) =>
      e := Effect([Thought(content), Error(SystemErrorText(error))], [], detector.State(), true, None);
    case Invalid(reason, suggestion) =>
      e := Effect([Thought(content)], Reinstruct(content, ValidationText(reason, suggestion)),
                  detector.State(), false, None);
    case Valid =>
      var name := PyStr(call["tool"]);
      var input := DisplayInput(call);
      var (output, status) := Execute(name, Get(call, "action", JNull), outcome);
      e := Effect([Thought(content), StepStart(Upper(name), input), StepEnd(Upper(name), input, output, status)],
                  Reinstruct(content, ObservationText(output)), detector.State(), false, None);
  }

  /** One pass of the loop body: the clock, the request, then the reply. */
  method TakeStep(detector: LoopDetection.LoopDetector<Object>, context: seq<Message>,
                  elapsed: real, reply: Reply, outcome: ToolOutcome) returns (e: Effect)
    requires detector.Valid() && detector.maxHistory == MaxHistory && detector.maxRepeats == MaxRepeats
    modifies detector
    ensures detector.Valid() && detector.State() == e.detector
    ensures e == StepEffect(context, old(detector.State()), elapsed, reply, outcome)
  {
    if elapsed > TimeoutSeconds {
      return Effect([Final(TimeoutText)], [], detector.State(), true, None);
    }
    match reply
    case RequestFailed(message) =>
      e := Effect([Error(ConnectionErrorText(message))], [], detector.State(), true, None);
    case Response(code, content) =>
      if code != 200 {
        return Effect([Error(ApiErrorText(code))], [], detector.State(), true, None);
      }
      var call := ParseCall(content);
      if NoCall(call) && Announces(content) {
        e := Effect([Thought(content)], Reinstruct(content, AlertText), detector.State(), false, None);
      } else if call.Some? && "tool" in call.value {
        e := Gate(detector, context, content, call.value, outcome);
      } else {
        var text := FinalText(content);
        e := Effect([Thought(content), Final(text)], [], detector.State(), true, Some(text));
      }
  }

  /** A step taken from a state that has not ended. */
  lemma RunStep(p: Progress, k: nat, elapsed: seq<real>, replies: seq<Reply>, outcomes: seq<ToolOutcome>)
    requires k < MaxSteps && Inputs(elapsed, replies, outcomes) && !p.done
    ensures var q := Apply(p, StepEffect(p.context, p.detector, elapsed[k], replies[k], outcomes[k]));
      Run(p, k, elapsed, replies, outcomes) == Run(q, k + 1, elapsed, replies, outcomes)
      && (q.done ==> Run(q, k + 1, elapsed, replies, outcomes) == q)
  {
  }

  /** The `for step_i in range(max_steps)` loop, from a fresh detector, over the
      cleaned context: it streams the records of `Run` and gives back its answer. */
  method Loop(context: seq<Message>,
              elapsed: seq<real>, replies: seq<Reply>, outcomes: seq<ToolOutcome>)
    returns (events: seq<Event>, answer: Option<string>)
    requires Inputs(elapsed, replies, outcomes)
    ensures var r := Run(Start(context), 0, elapsed, replies, outcomes);
      events == r.events && answer == r.answer
  {
    ghost var r := Run(Start(context), 0, elapsed, replies, outcomes);
    var detector := new LoopDetection.LoopDetector<Object>(MaxHistory, MaxRepeats);
    var current := context;
    events := [Info(InitText)];
    answer := None;
    var step := 0;
    while step < MaxSteps
      invariant step <= MaxSteps && answer.None? && fresh(detector)
      invariant detector.Valid() && detector.maxHistory == MaxHistory && detector.maxRepeats == MaxRepeats
      invariant Run(Progress(current, detector.State(), events, false, None), step, elapsed, replies, outcomes) == r
    {
      ghost var p := Progress(current, detector.State(), events, false, None);
      var e := TakeStep(detector, current, elapsed[step], replies[step], outcomes[step]);
      RunStep(p, step, elapsed, replies, outcomes);
      current := current + e.messages;
      events := events + e.records;
      if e.done {
        return events, e.answer;
      }
      step := step + 1;
    }
  }

  /** `get_chat_response_stream` run against a memory store: the records it streams are
      those of `Turn`, and the store gains the exchange exactly when there is an answer. */
  method RunTurn(message: string, apiKeyPresent: bool, systemPrompt: string, history: seq<Object>,
                 systemInfo: seq<(string, JVal)>, elapsed: seq<real>, replies: seq<Reply>,
                 outcomes: seq<ToolOutcome>, memory: Memory.MemoryStore, timestamp: string,
                 dateReadable: string)
    returns (events: seq<Event>)
    requires Inputs(elapsed, replies, outcomes)
    modifies memory
    ensures var t := Turn(message, apiKeyPresent, systemPrompt, history, systemInfo, elapsed, replies, outcomes);
      events == t.events
      && memory.snippets
         == (if t.answer.Some?
             then Memory.AppendSnippet(old(memory.snippets),
                    Memory.NewSnippet(message, t.answer.value, Memory.ExtractEntities(message),
                                      timestamp, dateReadable))
             else old(memory.snippets))
    ensures memory.preferences == old(memory.preferences) && memory.facts == old(memory.facts)
  {
    var entities := Memory.ExtractEntities(message);
    if !apiKeyPresent {
      return [Info(InitText), Error(MissingKeyText)];
    }
    var context := ContextBuilder.BuildOptimizedContext(MaxTokens, systemPrompt, message, history, systemInfo);
    context := CleanContext(context);
    var answer;
    events, answer := Loop(context, elapsed, replies, outcomes);
    if answer.Some? {
      memory.SaveConversationSnippet(message, answer.value, entities, timestamp, dateReadable);
    }
  }
}
