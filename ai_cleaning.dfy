/** The two message helpers of `ai_service.py`: `_clean_context`, which prepares the
    message list sent to the model, and `_clean_result_for_ai`, which prepares a
    tool's output before it is shown to the model. */
module Cleaning {

  import opened Wrappers
  import opened Text
  import opened Messages

  // ---------------------------------------------------------------------------
  // `_clean_context`

  /** One message added to the cleaned list: an empty one is skipped, one with the
      same role as the last kept message is joined onto it with a blank line. */
  function Push(cleaned: seq<Message>, msg: Message): seq<Message> {
    if msg.content == "" then cleaned
    else if cleaned == [] then [msg]
    else
      var last := cleaned[|cleaned| - 1];
      if last.role == msg.role
      then cleaned[..|cleaned| - 1] + [Message(last.role, last.content + "\n\n" + msg.content)]
      else cleaned + [msg]
  }

  /** `_clean_context(messages)`, one message at a time from the first. */
  function Cleaned(messages: seq<Message>): seq<Message> {
    if messages == [] then []
    else Push(Cleaned(messages[..|messages| - 1]), messages[|messages| - 1])
  }

  /** No message is empty and no two neighbours share a role. */
  predicate Tidy(ms: seq<Message>) {
    (forall k :: 0 <= k < |ms| ==> ms[k].content != "")
    && (forall k :: 0 < k < |ms| ==> ms[k - 1].role != ms[k].role)
  }

  /** The cleaned list is tidy, never longer than the input, and keeps the role of
      the last non-empty message last. */
  lemma {:induction false} CleanedIsTidy(messages: seq<Message>)
    ensures Tidy(Cleaned(messages))
    ensures |Cleaned(messages)| <= |messages|
  {
    if messages != [] {
      var front := messages[..|messages| - 1];
      CleanedIsTidy(front);
      var c := Cleaned(front);
      var msg := messages[|messages| - 1];
      if msg.content != "" && c != [] && c[|c| - 1].role == msg.role {
        var r := Push(c, msg);
        assert forall k :: 0 <= k < |c| - 1 ==> r[k] == c[k];
      }
    }
  }

  /** A tidy list comes back unchanged, so cleaning twice is cleaning once. */
  lemma {:induction false} TidyUnchanged(messages: seq<Message>)
    requires Tidy(messages)
    ensures Cleaned(messages) == messages
  {
    if messages != [] {
      var front := messages[..|messages| - 1];
      assert Tidy(front);
      TidyUnchanged(front);
    }
  }

  lemma CleanIdempotent(messages: seq<Message>)
    ensures Cleaned(Cleaned(messages)) == Cleaned(messages)
  {
    CleanedIsTidy(messages);
    TidyUnchanged(Cleaned(messages));
  }

  /** `_clean_context` */
  method CleanContext(messages: seq<Message>) returns (cleaned: seq<Message>)
    ensures cleaned == Cleaned(messages)
  {
    if messages == [] {
      return [];
    }
    cleaned := [];
    var i := 0;
    while i < |messages|
      invariant 0 <= i <= |messages|
      invariant cleaned == Cleaned(messages[..i])
    {
      var msg := messages[i];
      assert messages[..i + 1][..i] == messages[..i];
      if msg.content == "" {
      } else if cleaned == [] {
        cleaned := cleaned + [msg];
      } else {
        var last := cleaned[|cleaned| - 1];
        if last.role == msg.role {
          cleaned := cleaned[..|cleaned| - 1] + [Message(last.role, last.content + "\n\n" + msg.content)];
        } else {
          cleaned := cleaned + [msg];
        }
      }
      i := i + 1;
    }
    assert messages[..i] == messages;
  }

  // ---------------------------------------------------------------------------
  // `_clean_result_for_ai`

  const ImagePlaceholder: string := "[B64_IMAGE_DATA]"
  const MaxResult: nat := 12000
  const Truncated: string := "... [TRUNCATED]"

  predicate IsAsciiLetter(c: char) { 'a' <= c <= 'z' || 'A' <= c <= 'Z' }

  predicate IsBase64Char(c: char) { IsAsciiLetter(c) || IsDigit(c) || c == '+' || c == '/' }

  /** The end of the longest run of letters starting at `i`. */
  function LettersEnd(s: string, i: nat): (j: nat)
    requires i <= |s|
    ensures i <= j <= |s|
    ensures forall k :: i <= k < j ==> IsAsciiLetter(s[k])
    ensures j == |s| || !IsAsciiLetter(s[j])
    decreases |s| - i
  {
    if i < |s| && IsAsciiLetter(s[i]) then LettersEnd(s, i + 1) else i
  }

  /** The end of the longest run of base64 characters starting at `i`. */
  function Base64End(s: string, i: nat): (j: nat)
    requires i <= |s|
    ensures i <= j <= |s|
    ensures forall k :: i <= k < j ==> IsBase64Char(s[k])
    ensures j == |s| || !IsBase64Char(s[j])
    decreases |s| - i
  {
    if i < |s| && IsBase64Char(s[i]) then Base64End(s, i + 1) else i
  }

  /** The end of at most two '=' starting at `i` (the greedy `={0,2}`). */
  function PaddingEnd(s: string, i: nat): (j: nat)
    requires i <= |s|
    ensures i <= j <= |s| && j <= i + 2
    ensures forall k :: i <= k < j ==> s[k] == '='
    ensures j == i + 2 || j == |s| || s[j] != '='
  {
    if i < |s| && s[i] == '=' then (if i + 1 < |s| && s[i + 1] == '=' then i + 2 else i + 1) else i
  }

  /** Where a match of `data:image/[a-zA-Z]*;base64,[a-zA-Z0-9+/]*={0,2}` that starts
      at `i` ends, if one does. */
  function DataUriEnd(s: string, i: nat): (r: Option<nat>)
    requires i <= |s|
    ensures r.Some? ==> i < r.value <= |s| && OccursAt(s, "data:image/", i)
  {
    if OccursAt(s, "data:image/", i) then
      var a := LettersEnd(s, i + 11);
      if OccursAt(s, ";base64,", a) then Some(PaddingEnd(s, Base64End(s, a + 8)))
      else None
    else None
  }

  /** `re.sub` of that pattern by the placeholder, from index `i` on: matches are
      taken left to right and never overlap. */
  function ReplaceDataUris(s: string, i: nat): string
    requires i <= |s|
    decreases |s| - i
  {
    if i == |s| then ""
    else match DataUriEnd(s, i)
      case Some(e) => ImagePlaceholder + ReplaceDataUris(s, e)
      case None => [s[i]] + ReplaceDataUris(s, i + 1)
  }

  /** Text without "data:image/" is left as it is. */
  lemma {:induction false} NoImageUnchanged(s: string, i: nat)
    requires i <= |s|
    requires !Contains(s, "data:image/")
    ensures ReplaceDataUris(s, i) == s[i..]
    decreases |s| - i
  {
    if i < |s| {
      assert !OccursAt(s, "data:image/", i);
      NoImageUnchanged(s, i + 1);
      assert s[i..] == [s[i]] + s[i + 1..];
    }
  }

  /** A data URI from `i` (the marker, letters, ";base64,", base64 characters up to
      `b`, then up to two '=') is replaced as a whole, and the scan goes on right
      after its padding. */
  lemma ImageReplaced(s: string, i: nat, a: nat, b: nat)
    requires i + 11 <= a && a + 8 <= b <= |s|
    requires OccursAt(s, "data:image/", i)
    requires forall k :: i + 11 <= k < a ==> IsAsciiLetter(s[k])
    requires OccursAt(s, ";base64,", a)
    requires forall k :: a + 8 <= k < b ==> IsBase64Char(s[k])
    requires b == |s| || !IsBase64Char(s[b])
    ensures DataUriEnd(s, i) == Some(PaddingEnd(s, b))
    ensures ReplaceDataUris(s, i) == ImagePlaceholder + ReplaceDataUris(s, PaddingEnd(s, b))
  {
    assert s[a] == s[a..a + 8][0];
    LettersRun(s, i + 11, a);
    Base64Run(s, a + 8, b);
  }

  lemma {:induction false} LettersRun(s: string, i: nat, j: nat)
    requires i <= j <= |s|
    requires forall k :: i <= k < j ==> IsAsciiLetter(s[k])
    requires j == |s| || !IsAsciiLetter(s[j])
    ensures LettersEnd(s, i) == j
    decreases j - i
  {
    if i < j {
      LettersRun(s, i + 1, j);
    }
  }

  lemma {:induction false} Base64Run(s: string, i: nat, j: nat)
    requires i <= j <= |s|
    requires forall k :: i <= k < j ==> IsBase64Char(s[k])
    requires j == |s| || !IsBase64Char(s[j])
    ensures Base64End(s, i) == j
    decreases j - i
  {
    if i < j {
      Base64Run(s, i + 1, j);
    }
  }

  /** `_clean_result_for_ai(result)` for a text result: images replaced, then cut to
      12000 characters with a marker. */
  function CleanResultForAi(result: string): string {
    if result == "" then "" else Cut(ReplaceDataUris(result, 0))
  }

  /** The text cut to 12000 characters, with a marker when it was longer. */
  function Cut(cleaned: string): string {
    if |cleaned| > MaxResult then cleaned[..MaxResult] + Truncated else cleaned
  }

  /** The cleaned result is at most 12000 characters plus the marker; a longer text is
      cut to its first 12000 characters and marked, a shorter one is kept whole. */
  lemma CleanResultBounded(result: string)
    ensures var r := CleanResultForAi(result);
      var cleaned := ReplaceDataUris(result, 0);
      |r| <= MaxResult + |Truncated|
      && (|cleaned| > MaxResult ==> r[..MaxResult] == cleaned[..MaxResult] && EndsWith(r, Truncated))
      && (|cleaned| <= MaxResult ==> r == cleaned)
  {
    var r := CleanResultForAi(result);
    var cleaned := ReplaceDataUris(result, 0);
    if |cleaned| > MaxResult {
      assert r[MaxResult..] == Truncated;
    } else if result == "" {
      assert cleaned == "";
    }
  }
}
