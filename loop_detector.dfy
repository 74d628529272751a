/** The loop detector of `loop_detector.py`: a bounded history of accepted tool
    calls (a `deque` with `maxlen`) and a count of every call that got past the
    cycle checks.

    A call's signature is `json.dumps(call, sort_keys=True)`. The model takes the
    decoded dictionary itself as the signature: neither depends on the order the keys
    were written in, and calls built from strings, integers, booleans, null, lists
    and objects give the same text exactly when they are the same dictionary. Floats
    are kept as the literal the reply wrote, so `1.0` and `1.00` (or `1e2` and
    `100.0`) are two signatures here, where `json.dumps` prints one text for both.
    The detector only ever compares signatures for equality, so it is written for
    any type `S` of signatures and used with `S` = `Json.Object`. */
module LoopDetection {

  import opened Wrappers
  import opened Text
  import opened Json

  datatype LoopReason = ImmediateRepeat | ShortCycle | CycleDetected | Repeated(count: nat)

  /** The reason string `check` returns alongside `True`. */
  function ReasonText(r: LoopReason): string {
    match r
    case ImmediateRepeat => "IMMEDIATE_REPEAT"
    case ShortCycle => "SHORT_CYCLE"
    case CycleDetected => "CYCLE_DETECTED"
    case Repeated(c) => "REPEATED_" + NatToString(c) + "_TIMES"
  }

  function CountOf<S>(counts: map<S, nat>, sig: S): nat {
    if sig in counts then counts[sig] else 0
  }

  /** The cycle checks, in the order `check` makes them (lines 30-45). */
  function CycleCheck<S(==)>(history: seq<S>, sig: S): Option<LoopReason>
  {
    var n := |history|;
    if n >= 1 && history[n - 1] == sig then Some(ImmediateRepeat)
    else if n >= 3 && history[n - 2] == sig then Some(ShortCycle)
    else if n >= 4 && (history[n - 3] == sig || history[n - 4] == sig) then Some(CycleDetected)
    else None
  }

  /** `deque.append` on a deque with `maxlen`: the oldest entries fall off the front. */
  function BoundedAppend<S>(history: seq<S>, sig: S, maxLen: nat): (h: seq<S>)
    ensures |history| + 1 <= maxLen ==> h == history + [sig]
    ensures |history| + 1 > maxLen ==> |h| == maxLen && h == (history + [sig])[|history| + 1 - maxLen..]
  {
    var full := history + [sig];
    if |full| > maxLen then full[|full| - maxLen..] else full
  }

  /** The detector's state: what `history` and `repeat_counts` hold. */
  datatype DetectorState<S> = DetectorState(history: seq<S>, counts: map<S, nat>)

  /** What one `check(call)` returns and the state it leaves behind. */
  function CheckStep<S(==)>(st: DetectorState<S>, maxHistory: nat, maxRepeats: int, sig: S)
    : (Option<LoopReason>, DetectorState<S>)
  {
    match CycleCheck(st.history, sig)
    case Some(reason) => (Some(reason), st)
    case None =>
      var count := CountOf(st.counts, sig) + 1;
      var counts := st.counts[sig := count];
      if count > maxRepeats then (Some(Repeated(count)), DetectorState(st.history, counts))
      else (None, DetectorState(BoundedAppend(st.history, sig, maxHistory), counts))
  }

  class LoopDetector<S(==)> {
    const maxHistory: nat
    const maxRepeats: int
    var history: seq<S>
    var repeatCounts: map<S, nat>

    ghost predicate Valid()
      reads this
    {
      |history| <= maxHistory
    }

    function State(): DetectorState<S>
      reads this
    {
      DetectorState(history, repeatCounts)
    }

    /** `LoopDetector(max_history, max_repeats)` */
    constructor(maxHistory: nat, maxRepeats: int)
      ensures Valid()
      ensures this.maxHistory == maxHistory && this.maxRepeats == maxRepeats
      ensures history == [] && repeatCounts == map[]
    {
      this.maxHistory := maxHistory;
      this.maxRepeats := maxRepeats;
      history := [];
      repeatCounts := map[];
    }

    /** `check(call)`: `Some(reason)` is `(True, reason)`, `None` is `(False, None)`. */
    method Check(sig: S) returns (verdict: Option<LoopReason>)
      requires Valid()
      modifies this
      ensures Valid()
      ensures verdict == CheckStep(old(State()), maxHistory, maxRepeats, sig).0
      ensures State() == CheckStep(old(State()), maxHistory, maxRepeats, sig).1
    {
      var n := |history|;
      if n >= 1 && history[n - 1] == sig {
        return Some(ImmediateRepeat);
      }
      if n >= 3 && history[n - 2] == sig {
        return Some(ShortCycle);
      }
      if n >= 4 && (history[n - 3] == sig || history[n - 4] == sig) {
        return Some(CycleDetected);
      }
      assert CycleCheck(history, sig).None?;
      var count := (if sig in repeatCounts then repeatCounts[sig] else 0) + 1;
      repeatCounts := repeatCounts[sig := count];
      if count > maxRepeats {
        return Some(Repeated(count));
      }
      ghost var before := history;
      history := history + [sig];
      if |history| > maxHistory {
        history := history[|history| - maxHistory..];
      }
      assert history == BoundedAppend(before, sig, maxHistory);
      verdict := None;
    }

    /** `reset()` */
    method Reset()
      modifies this
      ensures Valid()
      ensures history == [] && repeatCounts == map[]
    {
      history := [];
      repeatCounts := map[];
    }
  }

  // ---------------------------------------------------------------------------
  // Properties of the detector

  /** The history never grows past `maxHistory`, and a cycle rejection changes nothing. */
  lemma CheckKeepsBound<S>(st: DetectorState<S>, maxHistory: nat, maxRepeats: int, sig: S)
    requires |st.history| <= maxHistory
    ensures var (v, st') := CheckStep(st, maxHistory, maxRepeats, sig);
            |st'.history| <= maxHistory
            && (v.Some? && !v.value.Repeated? ==> st' == st)
            && (v.Some? ==> st'.history == st.history)
            && (v.None? && maxHistory > 0 ==> |st'.history| > 0 && st'.history[|st'.history| - 1] == sig)
  {
  }

  /** Runs `check` on each signature in turn; the outcomes in order, and the final state. */
  function Run<S(==)>(st: DetectorState<S>, maxHistory: nat, maxRepeats: int, sigs: seq<S>)
    : (r: (seq<Option<LoopReason>>, DetectorState<S>))
    ensures |r.0| == |sigs|
    decreases |sigs|
  {
    if sigs == [] then ([], st)
    else
      var step := CheckStep(st, maxHistory, maxRepeats, sigs[0]);
      var rest := Run(step.1, maxHistory, maxRepeats, sigs[1..]);
      ([step.0] + rest.0, rest.1)
  }

  /** How many times `sig` was accepted among the outcomes. */
  function Accepted<S(==)>(sigs: seq<S>, outcomes: seq<Option<LoopReason>>, sig: S): nat
    requires |sigs| == |outcomes|
  {
    if sigs == [] then 0
    else (if sigs[0] == sig && outcomes[0].None? then 1 else 0) + Accepted(sigs[1..], outcomes[1..], sig)
  }

  /** However the calls are interleaved, the same call is accepted at most
      `maxRepeats` times in the life of a detector: every acceptance raises its
      count, and a call is accepted only while its count stays within `maxRepeats`. */
  lemma {:induction false} AcceptedAtMostMaxRepeats<S>(st: DetectorState<S>, maxHistory: nat, maxRepeats: nat,
                                                    sigs: seq<S>, sig: S)
    requires CountOf(st.counts, sig) <= maxRepeats
    ensures var (outcomes, st') := Run(st, maxHistory, maxRepeats, sigs);
            CountOf(st.counts, sig) + Accepted(sigs, outcomes, sig) <= CountOf(st'.counts, sig)
            && CountOf(st.counts, sig) + Accepted(sigs, outcomes, sig) <= maxRepeats
    decreases |sigs|
  {
    if sigs != [] {
      var (v, st1) := CheckStep(st, maxHistory, maxRepeats, sigs[0]);
      var (vs, st2) := Run(st1, maxHistory, maxRepeats, sigs[1..]);
      assert CountOf(st.counts, sig) <= CountOf(st1.counts, sig);
      if sigs[0] == sig && v.None? {
        assert CountOf(st1.counts, sig) == CountOf(st.counts, sig) + 1 <= maxRepeats;
      }
      if CountOf(st1.counts, sig) <= maxRepeats {
        AcceptedAtMostMaxRepeats(st1, maxHistory, maxRepeats, sigs[1..], sig);
      } else {
        NeverAcceptedPastLimit(st1, maxHistory, maxRepeats, sigs[1..], sig);
      }
    }
  }

  /** Once a call's count is past `maxRepeats` it is never accepted again, and its
      count never goes down. */
  lemma {:induction false} NeverAcceptedPastLimit<S>(st: DetectorState<S>, maxHistory: nat, maxRepeats: int,
                                                  sigs: seq<S>, sig: S)
    requires CountOf(st.counts, sig) > maxRepeats
    ensures var (outcomes, st') := Run(st, maxHistory, maxRepeats, sigs);
            Accepted(sigs, outcomes, sig) == 0 && CountOf(st'.counts, sig) >= CountOf(st.counts, sig)
    decreases |sigs|
  {
    if sigs != [] {
      var (v, st1) := CheckStep(st, maxHistory, maxRepeats, sigs[0]);
      assert CountOf(st.counts, sig) <= CountOf(st1.counts, sig);
      NeverAcceptedPastLimit(st1, maxHistory, maxRepeats, sigs[1..], sig);
    }
  }

  /** A check that passes the cycle checks and stays within the limit is accepted:
      the call is appended to a history that has room for it, and only its own count
      goes up. */
  lemma AcceptStep<S>(st: DetectorState<S>, maxHistory: nat, maxRepeats: int, sig: S) returns (st': DetectorState<S>)
    requires CycleCheck(st.history, sig).None? && CountOf(st.counts, sig) < maxRepeats
    requires |st.history| < maxHistory
    ensures st' == DetectorState(st.history + [sig], st.counts[sig := CountOf(st.counts, sig) + 1])
    ensures CheckStep(st, maxHistory, maxRepeats, sig) == (None, st')
  {
    st' := CheckStep(st, maxHistory, maxRepeats, sig).1;
  }

  /** A, B, A from a fresh detector is not flagged: the short-cycle check needs three
      entries of history, and A's count (2) is still within the caller's limit of 2. */
  lemma FreshABANotFlagged<S>(a: S, b: S)
    requires a != b
    ensures Run(DetectorState([], map[]), 12, 2, [a, b, a]).0 == [None, None, None]
  {
    var s0: DetectorState<S> := DetectorState([], map[]);
    var s1 := AcceptStep(s0, 12, 2, a);
    var s2 := AcceptStep(s1, 12, 2, b);
    var s3 := AcceptStep(s2, 12, 2, a);
    RunThrough([s0, s1, s2, s3], [a, b, a], 12, 2);
  }

  /** The same call twice in a row is an immediate repeat, and is not recorded. */
  lemma ImmediateRepeatFlagged<S>(st: DetectorState<S>, maxHistory: nat, maxRepeats: int, a: S)
    requires maxHistory >= 1 && CountOf(st.counts, a) < maxRepeats
    ensures var (v1, st1) := CheckStep(st, maxHistory, maxRepeats, a);
            v1 == None ==> CheckStep(st1, maxHistory, maxRepeats, a) == (Some(ImmediateRepeat), st1)
  {
  }

  /** With A, B, A accepted, B again is a short cycle. */
  lemma ABABFlagged<S>(a: S, b: S)
    requires a != b
    ensures Run(DetectorState([], map[]), 12, 2, [a, b, a, b]).0 == [None, None, None, Some(ShortCycle)]
  {
    var s0: DetectorState<S> := DetectorState([], map[]);
    var s1 := AcceptStep(s0, 12, 2, a);
    var s2 := AcceptStep(s1, 12, 2, b);
    var s3 := AcceptStep(s2, 12, 2, a);
    assert s3.history == [a, b, a];
    assert CheckStep(s3, 12, 2, b).0 == Some(ShortCycle);
    RunThrough([s0, s1, s2, s3, CheckStep(s3, 12, 2, b).1], [a, b, a, b], 12, 2);
  }

  /** Five distinct calls in a row, each seen 0 times before, are all accepted. */
  lemma FirstFiveAccepted<S>(s: DetectorState<S>, a: S, b: S, c: S, d: S, e: S)
      returns (s1: DetectorState<S>, s2: DetectorState<S>, s3: DetectorState<S>, s4: DetectorState<S>, s5: DetectorState<S>)
    requires a != b && a != c && a != d && a != e
    requires b != c && b != d && b != e && c != d && c != e && d != e
    requires s.history == []
    requires CountOf(s.counts, a) == 0 && CountOf(s.counts, b) == 0 && CountOf(s.counts, c) == 0
    requires CountOf(s.counts, d) == 0 && CountOf(s.counts, e) == 0
    ensures CheckStep(s, 12, 2, a) == (None, s1) && CheckStep(s1, 12, 2, b) == (None, s2)
    ensures CheckStep(s2, 12, 2, c) == (None, s3) && CheckStep(s3, 12, 2, d) == (None, s4)
    ensures CheckStep(s4, 12, 2, e) == (None, s5)
    ensures s5.history == [a, b, c, d, e]
    ensures CountOf(s5.counts, a) == 1 && CountOf(s5.counts, b) == 1 && CountOf(s5.counts, c) == 1
    ensures CountOf(s5.counts, d) == 1 && CountOf(s5.counts, e) == 1
  {
    s1 := AcceptStep(s, 12, 2, a);
    s2 := AcceptStep(s1, 12, 2, b);
    s3 := AcceptStep(s2, 12, 2, c);
    s4 := AcceptStep(s3, 12, 2, d);
    s5 := AcceptStep(s4, 12, 2, e);
  }

  /** Five distinct calls in a row, each seen 1 times before, are all accepted. */
  lemma SecondFiveAccepted<S>(s: DetectorState<S>, a: S, b: S, c: S, d: S, e: S)
      returns (s1: DetectorState<S>, s2: DetectorState<S>, s3: DetectorState<S>, s4: DetectorState<S>, s5: DetectorState<S>)
    requires a != b && a != c && a != d && a != e
    requires b != c && b != d && b != e && c != d && c != e && d != e
    requires s.history == [a, b, c, d, e]
    requires CountOf(s.counts, a) == 1 && CountOf(s.counts, b) == 1 && CountOf(s.counts, c) == 1
    requires CountOf(s.counts, d) == 1 && CountOf(s.counts, e) == 1
    ensures CheckStep(s, 12, 2, a) == (None, s1) && CheckStep(s1, 12, 2, b) == (None, s2)
    ensures CheckStep(s2, 12, 2, c) == (None, s3) && CheckStep(s3, 12, 2, d) == (None, s4)
    ensures CheckStep(s4, 12, 2, e) == (None, s5)
    ensures s5.history == [a, b, c, d, e, a, b, c, d, e]
    ensures CountOf(s5.counts, a) == 2 && CountOf(s5.counts, b) == 2 && CountOf(s5.counts, c) == 2
    ensures CountOf(s5.counts, d) == 2 && CountOf(s5.counts, e) == 2
  {
    s1 := AcceptStep(s, 12, 2, a);
    s2 := AcceptStep(s1, 12, 2, b);
    s3 := AcceptStep(s2, 12, 2, c);
    s4 := AcceptStep(s3, 12, 2, d);
    s5 := AcceptStep(s4, 12, 2, e);
  }

  /** A third occurrence of a call, four other calls apart each time, is over the
      limit of 2 and reported with its count. */
  lemma ThirdOccurrenceRepeated<S>(a: S, b: S, c: S, d: S, e: S)
    requires a != b && a != c && a != d && a != e
    requires b != c && b != d && b != e && c != d && c != e && d != e
    ensures Run(DetectorState([], map[]), 12, 2, [a, b, c, d, e, a, b, c, d, e, a]).0[10] == Some(Repeated(3))
  {
    var s0: DetectorState<S> := DetectorState([], map[]);
    var s1, s2, s3, s4, s5 := FirstFiveAccepted(s0, a, b, c, d, e);
    var s6, s7, s8, s9, s10 := SecondFiveAccepted(s5, a, b, c, d, e);
    assert CheckStep(s10, 12, 2, a).0 == Some(Repeated(3));
    RunThrough([s0, s1, s2, s3, s4, s5, s6, s7, s8, s9, s10, CheckStep(s10, 12, 2, a).1],
               [a, b, c, d, e, a, b, c, d, e, a], 12, 2);
  }

  /** A run that goes through the given states produces, in order, the outcome of
      each state's check. */
  lemma {:induction false} RunThrough<S>(states: seq<DetectorState<S>>, sigs: seq<S>, maxHistory: nat, maxRepeats: int)
    requires |states| == |sigs| + 1
    requires forall m :: 0 <= m < |sigs| ==> CheckStep(states[m], maxHistory, maxRepeats, sigs[m]).1 == states[m + 1]
    ensures Run(states[0], maxHistory, maxRepeats, sigs).0
              == seq(|sigs|, m requires 0 <= m < |sigs| => CheckStep(states[m], maxHistory, maxRepeats, sigs[m]).0)
    decreases |sigs|
  {
    if sigs != [] {
      RunThrough(states[1..], sigs[1..], maxHistory, maxRepeats);
    }
  }
}
