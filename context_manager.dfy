/** The context builder of `context_manager.py`: it packs the system prompt, an
    optional system-state message, an optional summary of the history that was
    dropped, the newest history that fits a token budget, and the user query, in
    that order. Tokens are counted with the encoder-less fallback, `len(text) // 4`. */
module ContextBuilder {

  import opened Wrappers
  import opened Text
  import opened Json
  import opened Messages

  /** The fallback token count: one token per four characters, rounded down. */
  function Tokens(s: string): (n: nat)
    ensures 4 * n <= |s| < 4 * n + 4
  {
    |s| / 4
  }

  // ---------------------------------------------------------------------------
  // Normalising the history

  /** `_format_message`: a history entry (a decoded JSON object) in role/content form,
      or `None` when the entry has no form the model understands. */
  function FormatMessage(msg: Object): Option<Message> {
    var kind := Get(msg, "type", JNull);
    var text := Get(msg, "text", JStr(""));
    if "role" in msg && "content" in msg then Some(Message(PyStr(msg["role"]), PyStr(msg["content"])))
    else if kind == JStr("input") then Some(Message("user", RemoveAll(PyStr(text), "> ")))
    else if kind == JStr("output") then Some(Message("assistant", PyStr(text)))
    else if kind == JStr("agent-step") && text.JObj? then Some(Message("assistant", ToolLine(ToMap(text.members))))
    else None
  }

  /** How an agent step is shown to the model: tool name, input, and the first
      150 characters of the output. */
  function ToolLine(step: Object): string {
    "[TOOL] " + PyStr(Get(step, "tool", JStr("cmd"))) + "(" + PyStr(Get(step, "input", JStr(""))) + ") -> "
    + Take(PyStr(Get(step, "output", JStr(""))), 150)
  }

  /** An entry is dropped exactly when it has neither role and content nor one of the
      three recognised types (an agent step counting only when its text is a dict). */
  lemma FormatDrops(msg: Object)
    ensures FormatMessage(msg).None? <==>
      !("role" in msg && "content" in msg)
      && Get(msg, "type", JNull) != JStr("input") && Get(msg, "type", JNull) != JStr("output")
      && !(Get(msg, "type", JNull) == JStr("agent-step") && Get(msg, "text", JStr("")).JObj?)
  {
  }

  /** Entries without their own role become user or assistant turns; an agent step
      becomes an assistant turn starting "[TOOL] " whose output part is at most 150
      characters. */
  lemma FormatRoles(msg: Object)
    requires FormatMessage(msg).Some? && !("role" in msg && "content" in msg)
    ensures FormatMessage(msg).value.role == "user" || FormatMessage(msg).value.role == "assistant"
    ensures Get(msg, "type", JNull) == JStr("agent-step") ==>
      var step := ToMap(Get(msg, "text", JStr("")).members);
      var out := Take(PyStr(Get(step, "output", JStr(""))), 150);
      && StartsWith(FormatMessage(msg).value.content, "[TOOL] ")
      && EndsWith(FormatMessage(msg).value.content, out) && |out| <= 150
  {
    if Get(msg, "type", JNull) == JStr("agent-step") {
      var c := FormatMessage(msg).value.content;
      var step := ToMap(Get(msg, "text", JStr("")).members);
      var head := "[TOOL] " + PyStr(Get(step, "tool", JStr("cmd"))) + "(" + PyStr(Get(step, "input", JStr(""))) + ") -> ";
      var out := Take(PyStr(Get(step, "output", JStr(""))), 150);
      assert c == head + out;
      assert c[..7] == "[TOOL] ";
      assert c[|c| - |out|..] == out;
    }
  }

  /** The list comprehension that keeps every entry `_format_message` accepts. */
  function Prioritized(history: seq<Object>): (p: seq<Message>)
    ensures |p| <= |history|
  {
    if history == [] then []
    else
      match FormatMessage(history[0])
      case None => Prioritized(history[1..])
      case Some(m) => [m] + Prioritized(history[1..])
  }

  /** Normalisation keeps the order of the history: it distributes over concatenation. */
  lemma {:induction false} PrioritizedAppend(h1: seq<Object>, h2: seq<Object>)
    ensures Prioritized(h1 + h2) == Prioritized(h1) + Prioritized(h2)
    decreases |h1|
  {
    if h1 != [] {
      assert (h1 + h2)[1..] == h1[1..] + h2;
      PrioritizedAppend(h1[1..], h2);
    } else {
      assert h1 + h2 == h2;
    }
  }

  // ---------------------------------------------------------------------------
  // The system-state message

  function InfoLine(entry: (string, JVal)): string {
    entry.0 + ": " + PyStr(entry.1)
  }

  /** "SYSTEM_STATE:" followed by one "key: value" line per entry, in insertion order. */
  function StateContent(info: seq<(string, JVal)>): string {
    "SYSTEM_STATE:\n" + Join("\n", seq(|info|, k requires 0 <= k < |info| => InfoLine(info[k])))
  }

  function StateMessage(info: seq<(string, JVal)>): Message {
    Message("system", StateContent(info))
  }

  /** The state is shown when there is any, and the prompt plus the state stay under a
      fifth of the token limit. */
  predicate IncludesState(maxTokens: nat, systemPrompt: string, info: seq<(string, JVal)>) {
    info != [] && 5 * (Tokens(systemPrompt) + Tokens(StateContent(info))) < maxTokens
  }

  /** The state message, as a list of zero or one messages. */
  function StatePart(maxTokens: nat, systemPrompt: string, info: seq<(string, JVal)>): seq<Message> {
    if IncludesState(maxTokens, systemPrompt, info) then [StateMessage(info)] else []
  }

  // ---------------------------------------------------------------------------
  // The history budget and the newest-first walk

  /** The tokens taken by the prompt and, when shown, the system state. */
  function UsedTokens(maxTokens: nat, systemPrompt: string, info: seq<(string, JVal)>): nat {
    Tokens(systemPrompt) + (if IncludesState(maxTokens, systemPrompt, info) then Tokens(StateContent(info)) else 0)
  }

  /** What is left for history once the prompt, the state (when shown), the query and a
      200-token reserve are taken; 500 when that is negative. */
  function Budget(maxTokens: nat, systemPrompt: string, userQuery: string, info: seq<(string, JVal)>): nat {
    var remaining := maxTokens - UsedTokens(maxTokens, systemPrompt, info) - Tokens(userQuery) - 200;
    if remaining < 0 then 500 else remaining
  }

  /** The tokens of the newest `k` messages. */
  function SuffixTokens(p: seq<Message>, k: nat): nat
    requires k <= |p|
  {
    if k == 0 then 0 else Tokens(p[|p| - k].content) + SuffixTokens(p, k - 1)
  }

  /** A longer suffix never costs fewer tokens. */
  lemma {:induction false} SuffixMonotone(p: seq<Message>, j: nat, k: nat)
    requires j <= k <= |p|
    ensures SuffixTokens(p, j) <= SuffixTokens(p, k)
    decreases k - j
  {
    if j < k {
      SuffixMonotone(p, j, k - 1);
    }
  }

  /** How many of the newest messages the newest-to-oldest walk keeps, having kept `i`
      so far: it stops at the first message that would take the total past `budget`. */
  function Kept(p: seq<Message>, budget: nat, i: nat): (n: nat)
    requires i <= |p| && SuffixTokens(p, i) <= budget
    ensures i <= n <= |p|
    ensures SuffixTokens(p, n) <= budget
    ensures n < |p| ==> SuffixTokens(p, n + 1) > budget
    decreases |p| - i
  {
    if i == |p| || SuffixTokens(p, i + 1) > budget then i else Kept(p, budget, i + 1)
  }

  /** The kept history is the longest suffix that fits: a suffix fits the budget
      exactly when it is no longer than the kept one. */
  lemma KeptIsLongestFit(p: seq<Message>, budget: nat, k: nat)
    requires k <= |p|
    ensures SuffixTokens(p, k) <= budget <==> k <= Kept(p, budget, 0)
  {
    var n := Kept(p, budget, 0);
    if k <= n {
      SuffixMonotone(p, k, n);
    } else {
      SuffixMonotone(p, n + 1, k);
    }
  }

  // ---------------------------------------------------------------------------
  // The summary of dropped history

  const SummaryKeywords: seq<string> := ["bitcoin", "crypto", "note", "wallet", "search", "python", "fix"]
  /** The fallback sentence (its first word kept apart, which lets the verifier see that
      it differs from a "Discussed ..." sentence without unfolding the whole literal). */
  const SummaryFallback: string := "Earlier" + " context involved general system interactions."

  predicate MentionedIn(msgs: seq<Message>, kw: string) {
    exists j :: 0 <= j < |msgs| && Contains(Lower(msgs[j].content), kw)
  }

  /** The keywords of `kws` some message mentions, ignoring case. */
  function FoundTopics(kws: seq<string>, msgs: seq<Message>): set<string> {
    set kw | kw in kws && MentionedIn(msgs, kw)
  }

  /** The members of `found` in the order of `kws`. */
  function InKeywordOrder(kws: seq<string>, found: set<string>): (r: seq<string>)
    ensures forall t :: t in r <==> t in kws && t in found
  {
    if kws == [] then []
    else (if kws[0] in found then [kws[0]] else []) + InKeywordOrder(kws[1..], found)
  }

  /** The topics the summary names: at most five of those found. */
  function NamedTopics(kws: seq<string>, msgs: seq<Message>): seq<string> {
    var all := InKeywordOrder(kws, FoundTopics(kws, msgs));
    if |all| <= 5 then all else all[..5]
  }

  /** The sentence naming the topics. */
  function Discussed(named: seq<string>): (s: string)
    ensures |s| > 0 && s[0] == 'D'
  {
    "Discussed topics like " + Join(", ", named) + "."
  }

  function SummaryOf(msgs: seq<Message>): string {
    if FoundTopics(SummaryKeywords, msgs) == {} then SummaryFallback
    else Discussed(NamedTopics(SummaryKeywords, msgs))
  }

  /** The system message carrying a summary. */
  function SummaryLine(summary: string): Message {
    Message("system", "PREVIOUS_CONVERSATION_SUMMARY: " + summary)
  }

  function SummaryMessage(msgs: seq<Message>): Message {
    SummaryLine(SummaryOf(msgs))
  }

  lemma KeywordsDistinct()
    ensures Distinct(SummaryKeywords)
  {
  }

  /** A value that is not a keyword does not affect the filtering. */
  lemma {:induction false} InKeywordOrderIgnores(kws: seq<string>, found: set<string>, x: string)
    requires x !in kws
    ensures InKeywordOrder(kws, found) == InKeywordOrder(kws, found - {x})
    decreases |kws|
  {
    if kws != [] {
      InKeywordOrderIgnores(kws[1..], found, x);
    }
  }

  /** Filtering distinct keywords yields no more names than were found. */
  lemma {:induction false} InKeywordOrderSize(kws: seq<string>, found: set<string>)
    requires Distinct(kws)
    ensures |InKeywordOrder(kws, found)| <= |found|
    decreases |kws|
  {
    if kws != [] {
      var rest := kws[1..];
      assert Distinct(rest);
      if kws[0] in found {
        assert kws[0] !in rest;
        InKeywordOrderIgnores(rest, found, kws[0]);
        InKeywordOrderSize(rest, found - {kws[0]});
      } else {
        InKeywordOrderSize(rest, found);
      }
    }
  }

  /** The summary is the fixed fallback sentence exactly when no keyword was found. */
  lemma SummaryFallbackExactly(msgs: seq<Message>)
    ensures FoundTopics(SummaryKeywords, msgs) == {} <==> SummaryOf(msgs) == SummaryFallback
  {
    if FoundTopics(SummaryKeywords, msgs) != {} {
      var s := Discussed(NamedTopics(SummaryKeywords, msgs));
      assert s[0] == 'D';
    }
  }

  /** With distinct keywords, between one and five topics are named, each a keyword
      some message mentions, and all of them when at most five were found. */
  lemma NamedTopicsFacts(kws: seq<string>, msgs: seq<Message>)
    requires Distinct(kws)
    ensures FoundTopics(kws, msgs) != {} ==> 1 <= |NamedTopics(kws, msgs)| <= 5
    ensures forall t :: t in NamedTopics(kws, msgs) ==> t in kws && MentionedIn(msgs, t)
    ensures |FoundTopics(kws, msgs)| <= 5 ==> forall t :: t in FoundTopics(kws, msgs) ==> t in NamedTopics(kws, msgs)
  {
    var found := FoundTopics(kws, msgs);
    var all := InKeywordOrder(kws, found);
    var named := NamedTopics(kws, msgs);
    assert forall t :: t in named ==> t in all;
    if found != {} {
      var t :| t in found;
      assert t in all;
    }
    if |found| <= 5 {
      InKeywordOrderSize(kws, found);
      assert named == all;
    }
  }

  /** The summary names between one and five of the seven keywords, each one some
      dropped message mentions, and all of them when at most five were found. */
  lemma SummaryNamesFoundTopics(msgs: seq<Message>)
    ensures FoundTopics(SummaryKeywords, msgs) != {} ==> 1 <= |NamedTopics(SummaryKeywords, msgs)| <= 5
    ensures forall t :: t in NamedTopics(SummaryKeywords, msgs) ==> t in SummaryKeywords && MentionedIn(msgs, t)
    ensures |FoundTopics(SummaryKeywords, msgs)| <= 5 ==>
      forall t :: t in FoundTopics(SummaryKeywords, msgs) ==> t in NamedTopics(SummaryKeywords, msgs)
  {
    KeywordsDistinct();
    NamedTopicsFacts(SummaryKeywords, msgs);
  }

  /** `_summarize_old_messages`: collects the mentioned keywords into a set, then names
      up to five of them. */
  method Summarize(earlier: seq<Message>) returns (text: string)
    ensures text == SummaryOf(earlier)
  {
    var keywords := SummaryKeywords;
    var topics: set<string> := {};
    var i := 0;
    while i < |earlier|
      invariant 0 <= i <= |earlier|
      invariant topics == FoundTopics(keywords, earlier[..i])
    {
      var content := Lower(earlier[i].content);
      var j := 0;
      while j < |keywords|
        invariant 0 <= j <= |keywords|
        invariant forall kw :: kw in topics <==>
          kw in FoundTopics(keywords, earlier[..i]) || (kw in keywords[..j] && Contains(content, kw))
      {
        if Contains(content, keywords[j]) {
          topics := topics + {keywords[j]};
        }
        assert keywords[..j + 1] == keywords[..j] + [keywords[j]];
        j := j + 1;
      }
      assert keywords[..j] == keywords;
      FoundTopicsStep(keywords, earlier, i);
      i := i + 1;
    }
    assert earlier[..i] == earlier;
    if topics != {} {
      text := Discussed(NamedTopics(keywords, earlier));
    } else {
      text := SummaryFallback;
    }
  }

  /** Reading one more message adds the keywords it mentions. */
  lemma FoundTopicsStep(kws: seq<string>, msgs: seq<Message>, i: nat)
    requires i < |msgs|
    ensures forall kw :: kw in FoundTopics(kws, msgs[..i + 1]) <==>
      kw in FoundTopics(kws, msgs[..i]) || (kw in kws && Contains(Lower(msgs[i].content), kw))
  {
    var front := msgs[..i];
    var next := msgs[..i + 1];
    assert forall j :: 0 <= j < i ==> next[j] == front[j];
    assert next[i] == msgs[i];
  }

  // ---------------------------------------------------------------------------
  // The assembled context

  /** `prioritized_history[:-n]`: for `n == 0` this is the empty list, not the whole history. */
  function Dropped(p: seq<Message>, n: nat): seq<Message>
    requires n <= |p|
  {
    if n == 0 then [] else p[..|p| - n]
  }

  /** A summary is added when some history was dropped and more than 300 tokens of the
      budget are left over. */
  predicate IncludesSummary(p: seq<Message>, budget: nat, n: nat)
    requires n <= |p|
  {
    |p| > n && budget - SuffixTokens(p, n) > 300
  }

  /** What precedes the history: the prompt, then the summary and the system state
      when they are included. */
  function Head(maxTokens: nat, systemPrompt: string, userQuery: string,
                history: seq<Object>, info: seq<(string, JVal)>): (h: seq<Message>)
    ensures 1 <= |h| <= 3 && h[0] == Message("system", systemPrompt)
  {
    var p := Prioritized(history);
    var budget := Budget(maxTokens, systemPrompt, userQuery, info);
    var n := Kept(p, budget, 0);
    [Message("system", systemPrompt)]
    + (if IncludesSummary(p, budget, n) then [SummaryMessage(Dropped(p, n))] else [])
    + StatePart(maxTokens, systemPrompt, info)
  }

  /** The newest messages of the normalised history that fit the budget. */
  function KeptHistory(maxTokens: nat, systemPrompt: string, userQuery: string,
                       history: seq<Object>, info: seq<(string, JVal)>): seq<Message>
  {
    var p := Prioritized(history);
    p[|p| - Kept(p, Budget(maxTokens, systemPrompt, userQuery, info), 0)..]
  }

  /** The context `build_optimized_context` returns. */
  function Layout(maxTokens: nat, systemPrompt: string, userQuery: string,
                  history: seq<Object>, info: seq<(string, JVal)>): seq<Message>
  {
    Head(maxTokens, systemPrompt, userQuery, history, info)
    + KeptHistory(maxTokens, systemPrompt, userQuery, history, info)
    + [Message("user", userQuery)]
  }

  /** The newest-to-oldest walk of `build_optimized_context`: each message is put in
      front of those kept until one would take the total past `budget`. */
  method KeepNewest(p: seq<Message>, budget: nat) returns (added: seq<Message>, historyTokens: nat)
    ensures |added| == Kept(p, budget, 0)
    ensures added == p[|p| - |added|..]
    ensures historyTokens == SuffixTokens(p, |added|) <= budget
  {
    added := [];
    historyTokens := 0;
    var i := 0;
    while i < |p|
      invariant 0 <= i <= |p|
      invariant added == p[|p| - i..]
      invariant historyTokens == SuffixTokens(p, i) <= budget
      invariant Kept(p, budget, i) == Kept(p, budget, 0)
    {
      var msg := p[|p| - 1 - i];
      var msgTokens := Tokens(msg.content);
      if historyTokens + msgTokens > budget {
        assert Kept(p, budget, i) == i;
        break;
      }
      added := [msg] + added;
      historyTokens := historyTokens + msgTokens;
      i := i + 1;
    }
  }

  /** The first two steps of `build_optimized_context`: the prompt, then the system
      state when there is any and it fits under a fifth of the limit. */
  method SystemPart(maxTokens: nat, systemPrompt: string, systemInfo: seq<(string, JVal)>)
    returns (context: seq<Message>, tokenCount: nat)
    ensures context == [Message("system", systemPrompt)] + StatePart(maxTokens, systemPrompt, systemInfo)
    ensures tokenCount == UsedTokens(maxTokens, systemPrompt, systemInfo)
  {
    context := [Message("system", systemPrompt)];
    tokenCount := Tokens(systemPrompt);
    if systemInfo != [] {
      var infoMsg := StateMessage(systemInfo);
      var infoTokens := Tokens(infoMsg.content);
      if 5 * (tokenCount + infoTokens) < maxTokens {
        context := context + [infoMsg];
        tokenCount := tokenCount + infoTokens;
      }
    }
  }

  lemma SummaryLineOf(msgs: seq<Message>, text: string)
    requires text == SummaryOf(msgs)
    ensures SummaryLine(text) == SummaryMessage(msgs)
  {
  }

  /** `Head` spelled out for a given normalised history, budget and kept count. */
  lemma HeadParts(maxTokens: nat, systemPrompt: string, userQuery: string,
                  history: seq<Object>, info: seq<(string, JVal)>, p: seq<Message>, budget: nat, n: nat)
    requires p == Prioritized(history) && budget == Budget(maxTokens, systemPrompt, userQuery, info)
    requires n == Kept(p, budget, 0)
    ensures Head(maxTokens, systemPrompt, userQuery, history, info)
      == [Message("system", systemPrompt)]
         + (if IncludesSummary(p, budget, n) then [SummaryMessage(Dropped(p, n))] else [])
         + StatePart(maxTokens, systemPrompt, info)
  {
  }

  /** `build_optimized_context`: the prompt first, the state if it is small enough,
      then the newest history that fits the budget, walked newest first; a summary of
      the rest goes in at index 1, and the query comes last. */
  method BuildOptimizedContext(maxTokens: nat, systemPrompt: string, userQuery: string,
                               history: seq<Object>, systemInfo: seq<(string, JVal)>)
    returns (context: seq<Message>)
    ensures context == Layout(maxTokens, systemPrompt, userQuery, history, systemInfo)
  {
    var tokenCount;
    context, tokenCount := SystemPart(maxTokens, systemPrompt, systemInfo);
    ghost var systemMsg := Message("system", systemPrompt);
    ghost var state := StatePart(maxTokens, systemPrompt, systemInfo);

    var userTokens := Tokens(userQuery);
    var remaining := maxTokens - tokenCount - userTokens - 200;
    if remaining < 0 {
      remaining := 500;
    }
    var budget: nat := remaining;
    assert budget == Budget(maxTokens, systemPrompt, userQuery, systemInfo);

    var p := Prioritized(history);
    var added, historyTokens := KeepNewest(p, budget);
    ghost var n := |added|;
    HeadParts(maxTokens, systemPrompt, userQuery, history, systemInfo, p, budget, n);
    ghost var withSummary := IncludesSummary(p, budget, n);
    assert withSummary <==> |p| > |added| && remaining - historyTokens > 300;

    if |p| > |added| && remaining - historyTokens > 300 {
      var earlier := if |added| == 0 then [] else p[..|p| - |added|];
      var summaryText := Summarize(earlier);
      var summaryMsg := SummaryLine(summaryText);
      SummaryLineOf(earlier, summaryText);
      assert earlier == Dropped(p, n);
      assert context[..1] == [systemMsg] && context[1..] == state;
      context := context[..1] + [summaryMsg] + context[1..];
      tokenCount := tokenCount + Tokens(summaryText);
      assert context == [systemMsg] + [SummaryMessage(Dropped(p, n))] + state;
    } else {
      assert context == [systemMsg] + [] + state;
    }
    assert context == Head(maxTokens, systemPrompt, userQuery, history, systemInfo);
    context := context + added + [Message("user", userQuery)];
  }

  // ---------------------------------------------------------------------------
  // Properties of the assembled context

  /** The context starts with the system prompt and ends with the user query, verbatim. */
  lemma ContextFrame(maxTokens: nat, systemPrompt: string, userQuery: string,
                     history: seq<Object>, info: seq<(string, JVal)>)
    ensures var c := Layout(maxTokens, systemPrompt, userQuery, history, info);
      |c| >= 2 && c[0] == Message("system", systemPrompt) && c[|c| - 1] == Message("user", userQuery)
  {
  }

  /** Between the frame and the query sits a contiguous suffix of the normalised
      history, in its original order: the longest one whose tokens fit the budget. */
  lemma ContextHistory(maxTokens: nat, systemPrompt: string, userQuery: string,
                       history: seq<Object>, info: seq<(string, JVal)>)
    ensures var c := Layout(maxTokens, systemPrompt, userQuery, history, info);
      var p := Prioritized(history);
      var n := Kept(p, Budget(maxTokens, systemPrompt, userQuery, info), 0);
      |c| >= n + 2 && c[|c| - 1 - n..|c| - 1] == p[|p| - n..]
  {
    var h := Head(maxTokens, systemPrompt, userQuery, history, info);
    var k := KeptHistory(maxTokens, systemPrompt, userQuery, history, info);
    var c := h + k + [Message("user", userQuery)];
    assert c[|c| - 1 - |k|..|c| - 1] == k;
  }

  /** The summary, when present, sits at index 1, ahead of the system state; the state,
      when present, directly follows the prompt or the summary. */
  lemma SummaryBeforeState(maxTokens: nat, systemPrompt: string, userQuery: string,
                           history: seq<Object>, info: seq<(string, JVal)>)
    ensures var c := Layout(maxTokens, systemPrompt, userQuery, history, info);
      var p := Prioritized(history);
      var budget := Budget(maxTokens, systemPrompt, userQuery, info);
      var n := Kept(p, budget, 0);
      && (IncludesSummary(p, budget, n) ==> c[1] == SummaryMessage(Dropped(p, n)))
      && (IncludesState(maxTokens, systemPrompt, info) ==>
            c[if IncludesSummary(p, budget, n) then 2 else 1] == StateMessage(info))
      && |c| == 2 + n + (if IncludesSummary(p, budget, n) then 1 else 0)
                      + (if IncludesState(maxTokens, systemPrompt, info) then 1 else 0)
  {
    var p := Prioritized(history);
    var budget := Budget(maxTokens, systemPrompt, userQuery, info);
    var n := Kept(p, budget, 0);
    HeadParts(maxTokens, systemPrompt, userQuery, history, info, p, budget, n);
    var summary := if IncludesSummary(p, budget, n) then [SummaryMessage(Dropped(p, n))] else [];
    var state := StatePart(maxTokens, systemPrompt, info);
    Positions(Message("system", systemPrompt), summary, state,
              KeptHistory(maxTokens, systemPrompt, userQuery, history, info), Message("user", userQuery));
  }

  /** Where the optional parts land in a context laid out as prompt, summary, state,
      history and query. */
  lemma Positions(sys: Message, summary: seq<Message>, state: seq<Message>, kept: seq<Message>, user: Message)
    requires |summary| <= 1 && |state| <= 1
    ensures var c := [sys] + summary + state + kept + [user];
      && (summary != [] ==> c[1] == summary[0])
      && (state != [] ==> c[1 + |summary|] == state[0])
      && |c| == 2 + |summary| + |state| + |kept|
  {
  }

  /** When not even the newest message fits, `[:-0]` hands the summariser an empty list,
      so the summary is the fallback sentence whatever the history mentions. */
  lemma NothingKeptSummarisesNothing(p: seq<Message>)
    ensures Dropped(p, 0) == []
    ensures SummaryMessage(Dropped(p, 0)).content == "PREVIOUS_CONVERSATION_SUMMARY: " + SummaryFallback
  {
    assert FoundTopics(SummaryKeywords, []) == {};
  }
}
