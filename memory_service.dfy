/** The memory of `memory_service.py`. The service keeps three JSON files: a log of
    recent conversation snippets, a dictionary of user preferences and a dictionary
    of facts learned per topic. Here each file is a field of one `MemoryStore`
    object. Every operation loads its file, changes it and stores it again, so a
    field that is reassigned models that round trip. Timestamps come from the clock
    and are parameters. */
module Memory {

  import opened Wrappers
  import opened Text

  // ---------------------------------------------------------------------------
  // Working memory: entity extraction

  /** The topics `extract_entities` tracks. Python keeps them in a set, whose
      iteration order depends on string hashing; here they keep this fixed order. */
  const EntityKeywords: seq<string> := [
    "bitcoin", "crypto", "python", "javascript", "ai", "ml",
    "vps", "server", "docker", "react", "api", "database",
    "trading", "investment", "portfolio", "stock", "finance",
    "ethereum", "solana", "blockchain", "linux", "windows", "macos"
  ]

  /** The members of `kws` that occur in `text`, in the order of `kws`. */
  function KeywordsIn(kws: seq<string>, text: string): (r: seq<string>)
    ensures forall t :: t in r <==> t in kws && Contains(text, t)
    decreases |kws|
  {
    if kws == [] then []
    else (if Contains(text, kws[0]) then [kws[0]] else []) + KeywordsIn(kws[1..], text)
  }

  /** `extract_entities`: the tracked topics that occur in the lower-cased message. */
  function ExtractEntities(message: string): (r: seq<string>)
    ensures forall t :: t in r <==> t in EntityKeywords && Contains(Lower(message), t)
  {
    KeywordsIn(EntityKeywords, Lower(message))
  }

  /** Extraction ignores letter case. */
  lemma EntitiesIgnoreCase(message: string)
    ensures ExtractEntities(Upper(message)) == ExtractEntities(message)
  {
    LowerOfUpper(message);
  }

  // ---------------------------------------------------------------------------
  // Short-term memory: the snippet log

  datatype Snippet = Snippet(
    timestamp: string,
    user: string,
    assistant: string,
    entities: seq<string>,
    dateReadable: string)

  const SnippetLimit: nat := 50

  /** `log[-limit:]`. A positive limit keeps the last `limit` entries; since `-0` is
      `0`, a limit of 0 keeps all of them, and a negative limit drops the first
      `-limit` entries. */
  function Window<T>(log: seq<T>, limit: int): (w: seq<T>)
    ensures |w| <= |log| && w == log[|log| - |w|..]
    ensures limit > 0 ==> |w| == if limit < |log| then limit else |log|
    ensures limit == 0 ==> w == log
    ensures limit < 0 ==> |w| == if -limit < |log| then |log| + limit else 0
  {
    if limit > 0 then (if limit >= |log| then log else log[|log| - limit..])
    else if -limit >= |log| then []
    else log[-limit..]
  }

  /** The entry `save_conversation_snippet` records: the user message cut to 200
      characters and the reply cut to 500. */
  function NewSnippet(userMsg: string, aiResponse: string, entities: seq<string>,
                      timestamp: string, dateReadable: string): Snippet {
    Snippet(timestamp, Take(userMsg, 200), Take(aiResponse, 500), entities, dateReadable)
  }

  /** The log after appending `entry`: the newest 50 entries. */
  function AppendSnippet(log: seq<Snippet>, entry: Snippet): seq<Snippet> {
    Window(log + [entry], SnippetLimit)
  }

  /** The new entry is the last one, the log never exceeds 50 entries, and the entries
      kept are the newest ones of the old log, in their order. */
  lemma AppendSnippetFacts(log: seq<Snippet>, entry: Snippet)
    ensures var r := AppendSnippet(log, entry);
      |r| == (if |log| < SnippetLimit then |log| + 1 else SnippetLimit)
      && r[|r| - 1] == entry
      && r[..|r| - 1] == log[|log| - (|r| - 1)..]
  {
    var r := AppendSnippet(log, entry);
    assert r == (log + [entry])[|log| + 1 - |r|..];
  }

  /** A log with fewer than 50 entries loses nothing. */
  lemma AppendSnippetKeepsShortLog(log: seq<Snippet>, entry: Snippet)
    requires |log| < SnippetLimit
    ensures AppendSnippet(log, entry) == log + [entry]
  {
  }

  /** All entities of the snippets, oldest snippet first. */
  function Flatten(log: seq<Snippet>): (all: seq<string>)
    ensures forall t :: t in all <==> exists k :: 0 <= k < |log| && t in log[k].entities
  {
    if log == [] then []
    else
      var front := log[..|log| - 1];
      var all := Flatten(front) + log[|log| - 1].entities;
      assert forall k :: 0 <= k < |front| ==> front[k] == log[k];
      all
  }

  /** The values of `xs` in the order they first occur: the key order of a `Counter`. */
  function FirstOccurrences(xs: seq<string>): (r: seq<string>)
    ensures forall t :: t in r <==> t in xs
    ensures Distinct(r)
  {
    if xs == [] then []
    else
      var r := FirstOccurrences(xs[..|xs| - 1]);
      assert forall t :: t in xs <==> t in xs[..|xs| - 1] || t == xs[|xs| - 1];
      if xs[|xs| - 1] in r then r else r + [xs[|xs| - 1]]
  }

  /** Index `i` holds a largest count, and no earlier index holds one as large. */
  predicate IsFirstMax(cands: seq<string>, counts: multiset<string>, i: int) {
    0 <= i < |cands|
    && (forall j :: 0 <= j < |cands| ==> counts[cands[j]] <= counts[cands[i]])
    && (forall j :: 0 <= j < i ==> counts[cands[j]] < counts[cands[i]])
  }

  /** The first candidate with the largest count. */
  function FirstMax(cands: seq<string>, counts: multiset<string>): (i: nat)
    requires |cands| > 0
    ensures IsFirstMax(cands, counts, i)
  {
    if |cands| == 1 then 0
    else
      var k := FirstMax(cands[1..], counts) + 1;
      if counts[cands[0]] >= counts[cands[k]] then 0 else k
  }

  /** `xs` without its entry at `i`. */
  function RemoveAt(xs: seq<string>, i: nat): (r: seq<string>)
    requires i < |xs|
    ensures |r| == |xs| - 1
    ensures forall t :: t in xs <==> t == xs[i] || t in r
    ensures Distinct(xs) ==> Distinct(r) && xs[i] !in r
  {
    var r := xs[..i] + xs[i + 1..];
    assert forall a :: 0 <= a < |r| ==> r[a] == xs[if a < i then a else a + 1];
    assert forall j :: 0 <= j < |xs| && j != i ==> xs[j] == r[if j < i then j else j - 1];
    r
  }

  /** `Counter.most_common(n)` over the candidates in key order: the sort by count is
      stable, so the candidates are taken by decreasing count, earlier ones first
      among equal counts. */
  function MostCommon(cands: seq<string>, counts: multiset<string>, n: nat): (r: seq<string>)
    ensures |r| == if n < |cands| then n else |cands|
    ensures forall t :: t in r ==> t in cands
    decreases n
  {
    if n == 0 || cands == [] then []
    else
      var i := FirstMax(cands, counts);
      [cands[i]] + MostCommon(RemoveAt(cands, i), counts, n - 1)
  }

  /** Counts never increase along `r`. */
  predicate NonIncreasing(r: seq<string>, counts: multiset<string>) {
    forall a, b :: 0 <= a < b < |r| ==> counts[r[a]] >= counts[r[b]]
  }

  /** A candidate missing from `r` counts no more than anything in `r`, and is only
      missing once `r` holds `n` values. */
  predicate Dominates(cands: seq<string>, r: seq<string>, counts: multiset<string>, n: nat) {
    forall t :: t in cands && t !in r ==> |r| == n && forall k :: 0 <= k < |r| ==> counts[t] <= counts[r[k]]
  }

  /** The most common values: no repeats, counts never increase along the result, and
      a candidate that is left out counts no more than any value taken, which only
      happens once `n` values are taken. */
  lemma {:induction false} MostCommonFacts(cands: seq<string>, counts: multiset<string>, n: nat)
    requires Distinct(cands)
    ensures Distinct(MostCommon(cands, counts, n))
    ensures NonIncreasing(MostCommon(cands, counts, n), counts)
    ensures Dominates(cands, MostCommon(cands, counts, n), counts, n)
    decreases n
  {
    if n > 0 && cands != [] {
      var i := FirstMax(cands, counts);
      var c := cands[i];
      var rest := RemoveAt(cands, i);
      var m: nat := n - 1;
      MostCommonFacts(rest, counts, m);
      var tail := MostCommon(rest, counts, m);
      assert MostCommon(cands, counts, n) == [c] + tail;
      forall t | t in cands ensures counts[t] <= counts[c] {
        var j :| 0 <= j < |cands| && cands[j] == t;
      }
      TakeLargestFirst(cands, rest, c, tail, counts, m, n);
    }
  }

  /** One step of `MostCommon`: putting the largest count in front of a result for the
      remaining candidates keeps the three properties. */
  lemma TakeLargestFirst(cands: seq<string>, rest: seq<string>, c: string, tail: seq<string>,
                         counts: multiset<string>, m: nat, n: nat)
    requires n == m + 1
    requires forall t :: t in cands ==> t == c || t in rest
    requires forall t :: t in cands ==> counts[t] <= counts[c]
    requires forall t :: t in tail ==> t in cands && t in rest
    requires c !in rest
    requires Distinct(tail) && NonIncreasing(tail, counts) && Dominates(rest, tail, counts, m)
    ensures var r := [c] + tail;
      Distinct(r) && NonIncreasing(r, counts) && Dominates(cands, r, counts, n)
  {
    var r := [c] + tail;
    forall k | 0 <= k < |tail| ensures counts[tail[k]] <= counts[c] {
      assert tail[k] in cands;
    }
    assert Distinct(r) by {
      forall a, b | 0 <= a < b < |r| ensures r[a] != r[b] {
        assert r[b] == tail[b - 1];
        if a > 0 {
          assert r[a] == tail[a - 1];
        }
      }
    }
    assert NonIncreasing(r, counts) by {
      forall a, b | 0 <= a < b < |r| ensures counts[r[a]] >= counts[r[b]] {
        assert r[b] == tail[b - 1];
        if a > 0 {
          assert r[a] == tail[a - 1];
        }
      }
    }
    assert Dominates(cands, r, counts, n) by {
      forall t | t in cands && t !in r
        ensures |r| == n && forall k :: 0 <= k < |r| ==> counts[t] <= counts[r[k]]
      {
        assert t in rest && t !in tail;
        forall k | 0 <= k < |r| ensures counts[t] <= counts[r[k]] {
          if k > 0 {
            assert r[k] == tail[k - 1];
          }
        }
      }
    }
  }

  /** `get_recent_topics(limit)`: the five most common entities of the last `limit`
      snippets. */
  function RecentTopics(log: seq<Snippet>, limit: int): seq<string> {
    var all := Flatten(Window(log, limit));
    MostCommon(FirstOccurrences(all), multiset(all), 5)
  }

  /** At most five distinct topics, each mentioned in the window, ordered by how often
      they are mentioned; a topic of the window that is left out is mentioned no more
      often than any topic returned, and then five are returned. */
  lemma RecentTopicsFacts(log: seq<Snippet>, limit: int)
    ensures var w := Window(log, limit);
      var all := Flatten(w);
      var r := RecentTopics(log, limit);
      |r| <= 5 && Distinct(r)
      && (forall t :: t in r ==> exists k :: 0 <= k < |w| && t in w[k].entities)
      && NonIncreasing(r, multiset(all))
      && Dominates(all, r, multiset(all), 5)
  {
    var all := Flatten(Window(log, limit));
    var cands := FirstOccurrences(all);
    MostCommonFacts(cands, multiset(all), 5);
    var r := RecentTopics(log, limit);
    assert Dominates(cands, r, multiset(all), 5);
    forall t | t in all && t !in r ensures |r| == 5 && forall k :: 0 <= k < |r| ==> multiset(all)[t] <= multiset(all)[r[k]] {
      assert t in cands;
    }
  }

  /** The entries `search_memory` finds, newest first. */
  predicate Matches(entry: Snippet, queryLower: string) {
    Contains(Lower(entry.user + " " + entry.assistant), queryLower)
    || exists k :: 0 <= k < |entry.entities| && Contains(queryLower, entry.entities[k])
  }

  /** The matching entries of `log`, newest first. */
  function Matching(log: seq<Snippet>, queryLower: string): (r: seq<Snippet>)
    ensures forall e :: e in r <==> e in log && Matches(e, queryLower)
  {
    if log == [] then []
    else
      var r := Matching(log[1..], queryLower) + (if Matches(log[0], queryLower) then [log[0]] else []);
      assert forall e :: e in log <==> e == log[0] || e in log[1..];
      r
  }

  /** The matches of a suffix of the log come first among the matches of the log. */
  lemma {:induction false} MatchingPrefix(log: seq<Snippet>, queryLower: string, j: nat)
    requires j <= |log|
    ensures var m := Matching(log[j..], queryLower);
      |m| <= |Matching(log, queryLower)| && Matching(log, queryLower)[..|m|] == m
    decreases j
  {
    if j > 0 {
      assert log[j..] == log[1..][j - 1..];
      MatchingPrefix(log[1..], queryLower, j - 1);
    }
  }

  /** The loop stops as soon as it holds `limit` entries, and it only checks after
      appending, so a limit below 1 still returns the first match. */
  function Cap(limit: int): nat {
    if limit < 1 then 1 else limit
  }

  /** `search_memory(query, limit)`. */
  function SearchResults(log: seq<Snippet>, query: string, limit: int): (r: seq<Snippet>)
    ensures var m := Matching(log, Lower(query));
      |r| <= Cap(limit) && |r| <= |m| && r == m[..|r|]
  {
    var m := Matching(log, Lower(query));
    if |m| <= Cap(limit) then m else m[..Cap(limit)]
  }

  /** Every entry returned is in the log and matches the query; when fewer than the
      cap are returned, every matching entry is returned. */
  lemma SearchResultsFacts(log: seq<Snippet>, query: string, limit: int)
    ensures var r := SearchResults(log, query, limit);
      (forall e :: e in r ==> e in log && Matches(e, Lower(query)))
      && (|r| < Cap(limit) ==> forall e :: e in log && Matches(e, Lower(query)) ==> e in r)
  {
    var m := Matching(log, Lower(query));
    var r := SearchResults(log, query, limit);
    forall e | e in r ensures e in m {
      var k :| 0 <= k < |r| && r[k] == e;
      assert m[k] == e;
    }
  }

  /** The newest matching entry is always returned first. */
  lemma NewestMatchFirst(log: seq<Snippet>, query: string, limit: int)
    requires |log| > 0 && Matches(log[|log| - 1], Lower(query))
    ensures SearchResults(log, query, limit)[0] == log[|log| - 1]
  {
    var last := |log| - 1;
    MatchingPrefix(log, Lower(query), last);
    assert log[last..] == [log[last]];
    assert Matching(log[last..][1..], Lower(query)) == [];
  }

  // ---------------------------------------------------------------------------
  // Long-term memory: preferences

  datatype Preference = Preference(value: string, updated: string)

  /** The stored preference under `key`. */
  function PrefLookup(prefs: seq<(string, Preference)>, key: string): Option<Preference> {
    if prefs == [] then None
    else if prefs[0].0 == key then Some(prefs[0].1)
    else PrefLookup(prefs[1..], key)
  }

  /** `prefs[key] = p` on a dictionary kept in insertion order: an existing key keeps
      its position, a new key goes last. */
  function PrefPut(prefs: seq<(string, Preference)>, key: string, p: Preference): (r: seq<(string, Preference)>)
    ensures |r| == |prefs| || |r| == |prefs| + 1
  {
    if prefs == [] then [(key, p)]
    else if prefs[0].0 == key then [(key, p)] + prefs[1..]
    else [prefs[0]] + PrefPut(prefs[1..], key, p)
  }

  function Keys(prefs: seq<(string, Preference)>): seq<string> {
    seq(|prefs|, i requires 0 <= i < |prefs| => prefs[i].0)
  }

  /** After storing under `key`, looking up `key` gives what was stored, and every
      other key gives what it gave before. */
  lemma {:induction false} PrefPutThenLookup(prefs: seq<(string, Preference)>, key: string, p: Preference, other: string)
    ensures PrefLookup(PrefPut(prefs, key, p), key) == Some(p)
    ensures other != key ==> PrefLookup(PrefPut(prefs, key, p), other) == PrefLookup(prefs, other)
  {
    if prefs != [] && prefs[0].0 != key {
      PrefPutThenLookup(prefs[1..], key, p, other);
    }
  }

  /** Storing under a key that is present keeps the key order; storing under a new key
      appends it. */
  lemma {:induction false} PrefPutOrder(prefs: seq<(string, Preference)>, key: string, p: Preference)
    ensures PrefLookup(prefs, key).Some? ==> Keys(PrefPut(prefs, key, p)) == Keys(prefs)
    ensures PrefLookup(prefs, key).None? ==> PrefPut(prefs, key, p) == prefs + [(key, p)]
  {
    if prefs != [] && prefs[0].0 != key {
      PrefPutOrder(prefs[1..], key, p);
      var r := PrefPut(prefs, key, p);
      assert Keys(r) == [prefs[0].0] + Keys(PrefPut(prefs[1..], key, p));
      assert Keys(prefs) == [prefs[0].0] + Keys(prefs[1..]);
    } else if prefs != [] {
      assert Keys(PrefPut(prefs, key, p)) == [key] + Keys(prefs[1..]);
      assert Keys(prefs) == [key] + Keys(prefs[1..]);
    }
  }

  // ---------------------------------------------------------------------------
  // Learned facts

  datatype Fact = Fact(fact: string, source: string, learnedAt: string)

  predicate Known(facts: seq<Fact>, text: string) {
    exists k :: 0 <= k < |facts| && facts[k].fact == text
  }

  /** The facts of one topic have different texts. */
  predicate DistinctFacts(facts: seq<Fact>) {
    forall a, b :: 0 <= a < b < |facts| ==> facts[a].fact != facts[b].fact
  }

  /** `facts.get(topic, [])`. */
  function FactsOf(facts: map<string, seq<Fact>>, topic: string): seq<Fact> {
    if topic in facts then facts[topic] else []
  }

  /** `save_learned_fact`: the topic is created when missing, and the entry is appended
      unless a fact with the same text is already recorded for the topic. */
  function AddFact(facts: map<string, seq<Fact>>, topic: string, entry: Fact): (r: map<string, seq<Fact>>)
    ensures topic in r && r.Keys == facts.Keys + {topic}
    ensures forall t :: t in facts && t != topic ==> r[t] == facts[t]
  {
    var existing := FactsOf(facts, topic);
    facts[topic := if Known(existing, entry.fact) then existing else existing + [entry]]
  }

  /** The fact is recorded afterwards, the topic's texts stay distinct, and the topic
      grows by one entry exactly when the text was new. */
  lemma AddFactFacts(facts: map<string, seq<Fact>>, topic: string, entry: Fact)
    requires DistinctFacts(FactsOf(facts, topic))
    ensures var after := AddFact(facts, topic, entry)[topic];
      Known(after, entry.fact)
      && DistinctFacts(after)
      && (Known(FactsOf(facts, topic), entry.fact) <==> after == FactsOf(facts, topic))
      && (!Known(FactsOf(facts, topic), entry.fact) <==> after == FactsOf(facts, topic) + [entry])
  {
    var existing := FactsOf(facts, topic);
    var after := AddFact(facts, topic, entry)[topic];
    if !Known(existing, entry.fact) {
      assert after[|after| - 1] == entry;
      assert after != existing;
    } else {
      assert after != existing + [entry];
    }
  }

  /** Saving a fact whose text is already recorded for the topic changes nothing. */
  lemma AddFactIdempotent(facts: map<string, seq<Fact>>, topic: string, e1: Fact, e2: Fact)
    requires e1.fact == e2.fact
    ensures AddFact(AddFact(facts, topic, e1), topic, e2) == AddFact(facts, topic, e1)
  {
    var once := AddFact(facts, topic, e1);
    var existing := FactsOf(facts, topic);
    if !Known(existing, e1.fact) {
      assert once[topic][|existing|] == e1;
    }
    assert Known(once[topic], e2.fact);
  }

  /** `get_facts_about(topic)`: the texts recorded for the topic, oldest first. */
  function FactsAbout(facts: map<string, seq<Fact>>, topic: string): (r: seq<string>)
    ensures |r| == |FactsOf(facts, topic)|
    ensures forall k :: 0 <= k < |r| ==> r[k] == FactsOf(facts, topic)[k].fact
  {
    var fs := FactsOf(facts, topic);
    seq(|fs|, k requires 0 <= k < |fs| => fs[k].fact)
  }

  // ---------------------------------------------------------------------------
  // The memory summary for the system prompt

  const Header: string := "MEMORY CONTEXT:"
  const NoContext: string := Header + " New conversation, no prior context."

  function TopicsPart(topics: seq<string>): string {
    "Recent topics discussed: " + Join(", ", topics)
  }

  function PrefItems(prefs: seq<(string, Preference)>): seq<string> {
    seq(|prefs|, i requires 0 <= i < |prefs| => prefs[i].0 + ": " + prefs[i].1.value)
  }

  function PrefsPart(prefs: seq<(string, Preference)>): string {
    "User preferences: " + Join(", ", PrefItems(prefs))
  }

  /** The parts present: the topics line when there are topics, the preferences line
      when there are preferences. */
  function SummaryParts(topics: seq<string>, prefs: seq<(string, Preference)>): seq<string> {
    (if topics != [] then [TopicsPart(topics)] else [])
    + (if prefs != [] then [PrefsPart(prefs)] else [])
  }

  function Bullets(parts: seq<string>): seq<string> {
    seq(|parts|, i requires 0 <= i < |parts| => "- " + parts[i])
  }

  /** `build_context_summary` given the recent topics and the preferences. */
  function ContextSummary(topics: seq<string>, prefs: seq<(string, Preference)>): (s: string)
    ensures StartsWith(s, Header)
  {
    var parts := SummaryParts(topics, prefs);
    if parts != [] then Header + "\n" + Join("\n", Bullets(parts)) else NoContext
  }

  /** The fixed "new conversation" text comes back exactly when there are neither
      recent topics nor preferences. */
  lemma NoContextExactly(topics: seq<string>, prefs: seq<(string, Preference)>)
    ensures ContextSummary(topics, prefs) == NoContext <==> topics == [] && prefs == []
  {
    var s := ContextSummary(topics, prefs);
    if topics != [] || prefs != [] {
      var rest := Join("\n", Bullets(SummaryParts(topics, prefs)));
      assert s == Header + "\n" + rest;
      assert s[|Header|] == '\n';
      assert NoContext[|Header|] == ' ';
    }
  }

  // ---------------------------------------------------------------------------
  // The three files as one object

  class MemoryStore {
    /** `short_term.json` */
    var snippets: seq<Snippet>
    /** `preferences.json`, in insertion order */
    var preferences: seq<(string, Preference)>
    /** `learned_facts.json` */
    var facts: map<string, seq<Fact>>

    /** No file exists yet. */
    constructor ()
      ensures snippets == [] && preferences == [] && facts == map[]
    {
      snippets := [];
      preferences := [];
      facts := map[];
    }

    /** `save_conversation_snippet`. */
    method SaveConversationSnippet(userMsg: string, aiResponse: string, entities: seq<string>,
                                   timestamp: string, dateReadable: string)
      modifies this
      ensures snippets == AppendSnippet(old(snippets), NewSnippet(userMsg, aiResponse, entities, timestamp, dateReadable))
      ensures |snippets| <= SnippetLimit
      ensures preferences == old(preferences) && facts == old(facts)
    {
      var memories := snippets;
      var entry := Snippet(timestamp, Take(userMsg, 200), Take(aiResponse, 500), entities, dateReadable);
      memories := memories + [entry];
      memories := Window(memories, SnippetLimit);
      snippets := memories;
    }

    /** `get_recent_topics(limit)`. */
    method GetRecentTopics(limit: int) returns (topics: seq<string>)
      ensures topics == RecentTopics(snippets, limit)
    {
      var recent := Window(snippets, limit);
      var all: seq<string> := [];
      var i := 0;
      while i < |recent|
        invariant 0 <= i <= |recent|
        invariant all == Flatten(recent[..i])
      {
        assert recent[..i + 1][..i] == recent[..i];
        all := all + recent[i].entities;
        i := i + 1;
      }
      assert recent[..i] == recent;
      topics := MostCommon(FirstOccurrences(all), multiset(all), 5);
    }

    /** `search_memory(query, limit)`: the log is walked from the newest entry, and the
      walk stops once `limit` entries are collected. */
    method SearchMemory(query: string, limit: int) returns (relevant: seq<Snippet>)
      ensures relevant == SearchResults(snippets, query, limit)
    {
      var queryLower := Lower(query);
      relevant := [];
      var i := |snippets|;
      while i > 0
        invariant 0 <= i <= |snippets|
        invariant relevant == Matching(snippets[i..], queryLower)
        invariant |relevant| < Cap(limit)
      {
        i := i - 1;
        var mem := snippets[i];
        assert snippets[i..][1..] == snippets[i + 1..];
        if Matches(mem, queryLower) {
          relevant := relevant + [mem];
          if |relevant| >= limit {
            MatchingPrefix(snippets, queryLower, i);
            return;
          }
        }
      }
      assert snippets[0..] == snippets;
    }

    /** `save_preference(key, value)`. */
    method SavePreference(key: string, value: string, now: string)
      modifies this
      ensures preferences == PrefPut(old(preferences), key, Preference(value, now))
      ensures GetPreference(key) == Some(value)
      ensures snippets == old(snippets) && facts == old(facts)
    {
      PrefPutThenLookup(preferences, key, Preference(value, now), key);
      preferences := PrefPut(preferences, key, Preference(value, now));
    }

    /** `get_preference(key)`. */
    function GetPreference(key: string): Option<string>
      reads this
    {
      match PrefLookup(preferences, key)
      case None => None
      case Some(p) => Some(p.value)
    }

    /** `save_learned_fact(topic, fact, source)`. */
    method SaveLearnedFact(topic: string, fact: string, source: string, now: string)
      modifies this
      ensures facts == AddFact(old(facts), topic, Fact(fact, source, now))
      ensures snippets == old(snippets) && preferences == old(preferences)
    {
      facts := AddFact(facts, topic, Fact(fact, source, now));
    }

    /** `build_context_summary()`: the topics of the last ten snippets and all the
        preferences. */
    method BuildContextSummary() returns (summary: string)
      ensures summary == ContextSummary(RecentTopics(snippets, 10), preferences)
    {
      var recentTopics := GetRecentTopics(10);
      summary := ContextSummary(recentTopics, preferences);
    }
  }
}
