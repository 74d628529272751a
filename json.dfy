/** JSON values as Python's `json.loads` returns them, the decoder itself (the
    behaviour of CPython's C scanner), Python truthiness and `str()` of a value.

    Objects keep their members in the order they were written; the dictionary
    Python builds from them is `ToMap`, where a repeated key keeps its last value. */
module Json {

  import opened Wrappers
  import opened Text

  datatype JVal =
    | JNull
    | JBool(b: bool)
    | JInt(i: int)
    | JFloat(lexeme: string)   // a float literal as written, or NaN / Infinity / -Infinity
    | JStr(s: string)
    | JArr(items: seq<JVal>)
    | JObj(members: seq<(string, JVal)>)

  /** A decoded JSON object, i.e. a Python `dict` with string keys. */
  type Object = map<string, JVal>

  // ---------------------------------------------------------------------------
  // From members to a dictionary

  /** `dict(members)`: later members overwrite earlier ones with the same key. */
  function ToMap(members: seq<(string, JVal)>): (m: Object)
    ensures forall k :: k in m <==> exists p :: p in members && p.0 == k
    ensures members != [] ==> m[members[|members| - 1].0] == members[|members| - 1].1
    decreases |members|
  {
    if members == [] then map[]
    else
      var front := members[..|members| - 1];
      var last := members[|members| - 1];
      var m := ToMap(front)[last.0 := last.1];
      assert forall p :: p in members <==> p in front || p == last by {
        assert members == front + [last];
      }
      m
  }

  predicate DistinctKeys(members: seq<(string, JVal)>) {
    forall a, b :: 0 <= a < b < |members| ==> members[a].0 != members[b].0
  }

  /** With distinct keys, the dictionary holds exactly the written pairs. */
  lemma {:induction false} ToMapHolds(members: seq<(string, JVal)>, k: string, v: JVal)
    requires DistinctKeys(members)
    ensures (k in ToMap(members) && ToMap(members)[k] == v) <==> (k, v) in members
    decreases |members|
  {
    if members != [] {
      var front := members[..|members| - 1];
      var last := members[|members| - 1];
      assert members == front + [last];
      assert DistinctKeys(front);
      ToMapHolds(front, k, v);
      if k == last.0 {
        assert forall a :: 0 <= a < |front| ==> front[a].0 != k;
      }
    }
  }

  /** Two objects written with the same members in a different order decode to the
      same dictionary: the order of keys carries no meaning. */
  lemma KeyOrderIrrelevant(m1: seq<(string, JVal)>, m2: seq<(string, JVal)>)
    requires DistinctKeys(m1) && DistinctKeys(m2)
    requires forall p :: p in m1 <==> p in m2
    ensures ToMap(m1) == ToMap(m2)
  {
    var d1, d2 := ToMap(m1), ToMap(m2);
    forall k | k in d1 ensures k in d2 && d2[k] == d1[k] {
      ToMapHolds(m1, k, d1[k]);
      ToMapHolds(m2, k, d1[k]);
    }
    forall k | k in d2 ensures k in d1 {
      ToMapHolds(m2, k, d2[k]);
      ToMapHolds(m1, k, d2[k]);
    }
  }

  /** `d.get(key, default)` */
  function Get(d: Object, key: string, default: JVal): (v: JVal)
    ensures key in d ==> v == d[key]
    ensures key !in d ==> v == default
  {
    if key in d then d[key] else default
  }

  // ---------------------------------------------------------------------------
  // Python truthiness and str()

  /** Where the exponent of a float literal starts (its length when it has none). */
  function ExponentStart(lexeme: string): (e: nat)
    ensures e <= |lexeme|
  {
    if lexeme == [] || lexeme[0] == 'e' || lexeme[0] == 'E' then 0
    else 1 + ExponentStart(lexeme[1..])
  }

  /** The mantissa of a float literal has no non-zero digit; `NaN` and the
      infinities are not zero. A non-zero literal too small for a double (`1e-400`),
      which Python reads as 0.0, is not recognised as zero. */
  predicate FloatLexemeIsZero(lexeme: string) {
    forall k :: 0 <= k < ExponentStart(lexeme) ==> lexeme[k] in "-0."
  }

  /** `not v` in Python: None, False, 0, 0.0, "", [] and {} are falsy. */
  predicate Falsy(v: JVal) {
    match v
    case JNull => true
    case JBool(b) => !b
    case JInt(i) => i == 0
    case JFloat(lexeme) => FloatLexemeIsZero(lexeme)
    case JStr(s) => s == ""
    case JArr(items) => items == []
    case JObj(members) => members == []
  }

  /** `str(v)` */
  function PyStr(v: JVal): string {
    match v
    case JNull => "None"
    case JBool(b) => if b then "True" else "False"
    case JInt(i) => IntToString(i)
    case JFloat(lexeme) =>
      if lexeme == "NaN" then "nan"
      else if lexeme == "Infinity" then "inf"
      else if lexeme == "-Infinity" then "-inf"
      else lexeme
    case JStr(s) => s
    case JArr(items) =>
      "[" + Join(", ", seq(|items|, k requires 0 <= k < |items| =>
                             if items[k].JStr? then Quoted(items[k].s) else PyStr(items[k]))) + "]"
    case JObj(members) =>
      "{" + Join(", ", seq(|members|, k requires 0 <= k < |members| =>
                             Quoted(members[k].0) + ": "
                             + if members[k].1.JStr? then Quoted(members[k].1.s) else PyStr(members[k].1))) + "}"
  }

  /** How `repr` shows a string inside a list or dict: in single quotes, or in double
      quotes when it holds a single quote and no double quote, with escapes. */
  function Quoted(s: string): string {
    var q := if '\'' in s && '"' !in s then '"' else '\'';
    [q] + Escaped(s, q) + [q]
  }

  function Escaped(s: string, q: char): string {
    if s == [] then [] else EscapedChar(s[0], q) + Escaped(s[1..], q)
  }

  /** How `repr` writes one character between quotes `q`. The characters up to U+00FF
      that Python does not count as printable are written as `\xhh`. */
  function EscapedChar(c: char, q: char): string {
    if c == q || c == '\\' then ['\\', c]
    else if c == '\t' then "\\t"
    else if c == '\n' then "\\n"
    else if c == '\r' then "\\r"
    else if c < ' ' || ('\U{7F}' <= c <= '\U{A0}') || c == '\U{AD}' then
      "\\x" + [HexDigits[c as int / 16], HexDigits[c as int % 16]]
    else [c]
  }

  const HexDigits: string := "0123456789abcdef"

  /** Python's type name, as it appears in a `TypeError` message. */
  function TypeName(v: JVal): string {
    match v
    case JNull => "NoneType"
    case JBool(_) => "bool"
    case JInt(_) => "int"
    case JFloat(_) => "float"
    case JStr(_) => "str"
    case JArr(_) => "list"
    case JObj(_) => "dict"
  }

  // ---------------------------------------------------------------------------
  // The decoder

  predicate IsJsonSpace(c: char) { c == ' ' || c == '\t' || c == '\n' || c == '\r' }

  function SkipSpace(s: string, i: nat): (j: nat)
    requires i <= |s|
    ensures i <= j <= |s|
    ensures forall k :: i <= k < j ==> IsJsonSpace(s[k])
    ensures j < |s| ==> !IsJsonSpace(s[j])
    decreases |s| - i
  {
    if i < |s| && IsJsonSpace(s[i]) then SkipSpace(s, i + 1) else i
  }

  predicate LiteralAt(s: string, i: nat, lit: string) {
    i + |lit| <= |s| && s[i..i + |lit|] == lit
  }

  function HexDigit(c: char): Option<nat> {
    if '0' <= c <= '9' then Some(c as int - '0' as int)
    else if 'a' <= c <= 'f' then Some(c as int - 'a' as int + 10)
    else if 'A' <= c <= 'F' then Some(c as int - 'A' as int + 10)
    else None
  }

  /** The four hex digits of a `\uXXXX` escape starting at `i`. */
  function Hex4(s: string, i: nat): (r: Option<nat>)
    ensures r.Some? ==> i + 4 <= |s| && r.value < 0x10000
  {
    if i + 4 <= |s| then
      match (HexDigit(s[i]), HexDigit(s[i + 1]), HexDigit(s[i + 2]), HexDigit(s[i + 3]))
      case (Some(a), Some(b), Some(c), Some(d)) =>
        if a < 16 && b < 16 && c < 16 && d < 16 then Some(((a * 16 + b) * 16 + c) * 16 + d) else None
      case _ => None
    else None
  }

  /** The body of a string literal from `i` (just after the opening quote) to the
      closing quote; `acc` holds what was decoded so far. */
  function ParseChars(s: string, i: nat, acc: string): (r: Option<(string, nat)>)
    requires i <= |s|
    ensures r.Some? ==> i < r.value.1 <= |s|
    decreases |s| - i
  {
    if i == |s| then None
    else if s[i] == '"' then Some((acc, i + 1))
    else if s[i] == '\\' then
      if i + 1 == |s| then None
      else
        var e := s[i + 1];
        if e == 'u' then
          match Hex4(s, i + 2)
          case None => None
          case Some(u) =>
            if 0xD800 <= u <= 0xDBFF then
              if i + 12 < |s| && s[i + 6] == '\\' && s[i + 7] == 'u' then
                match Hex4(s, i + 8)
                case None => None
                case Some(l) =>
                  if 0xDC00 <= l <= 0xDFFF then
                    var code := 0x10000 + (u - 0xD800) * 0x400 + (l - 0xDC00);
                    ParseChars(s, i + 12, acc + [code as char])
                  else None
              else None
            else if 0xDC00 <= u <= 0xDFFF then None
            else ParseChars(s, i + 6, acc + [u as char])
        else if e == '"' || e == '\\' || e == '/' then ParseChars(s, i + 2, acc + [e])
        else if e == 'b' then ParseChars(s, i + 2, acc + ['\U{8}'])
        else if e == 'f' then ParseChars(s, i + 2, acc + ['\U{C}'])
        else if e == 'n' then ParseChars(s, i + 2, acc + ['\n'])
        else if e == 'r' then ParseChars(s, i + 2, acc + ['\r'])
        else if e == 't' then ParseChars(s, i + 2, acc + ['\t'])
        else None
    else if s[i] < ' ' then None
    else ParseChars(s, i + 1, acc + [s[i]])
  }

  function DigitsEnd(s: string, i: nat): (j: nat)
    requires i <= |s|
    ensures i <= j <= |s|
    ensures forall k :: i <= k < j ==> IsDigit(s[k])
    ensures j < |s| ==> !IsDigit(s[j])
    decreases |s| - i
  {
    if i < |s| && IsDigit(s[i]) then DigitsEnd(s, i + 1) else i
  }

  function DigitValue(c: char): nat
    requires IsDigit(c)
  {
    c as int - '0' as int
  }

  function DigitsValue(s: string, a: nat, b: nat): nat
    requires a <= b <= |s|
    requires forall k :: a <= k < b ==> IsDigit(s[k])
    decreases b - a
  {
    if a == b then 0
    else DigitsValue(s, a, b - 1) * 10 + DigitValue(s[b - 1])
  }

  /** `-?(0|[1-9][0-9]*)(\.[0-9]+)?([eE][-+]?[0-9]+)?`: an integer when neither the
      fraction nor the exponent is present, a float otherwise. */
  function ParseNumber(s: string, i: nat): (r: Option<(JVal, nat)>)
    requires i < |s|
    ensures r.Some? ==> i < r.value.1 <= |s|
  {
    var a := if s[i] == '-' then i + 1 else i;
    if a >= |s| || !IsDigit(s[a]) then None
    else
      var b := if s[a] == '0' then a + 1 else DigitsEnd(s, a);
      var c := if b + 1 < |s| && s[b] == '.' && IsDigit(s[b + 1]) then DigitsEnd(s, b + 1) else b;
      var e := if c < |s| && (s[c] == 'e' || s[c] == 'E') then
                 (if c + 1 < |s| && (s[c + 1] == '+' || s[c + 1] == '-') then c + 2 else c + 1)
               else c;
      var d := if e > c && e < |s| && IsDigit(s[e]) then DigitsEnd(s, e) else c;
      if d == b then
        var n: int := DigitsValue(s, a, b);
        Some((JInt(if s[i] == '-' then -n else n), b))
      else Some((JFloat(s[i..d]), d))
  }

  /** One JSON value starting exactly at `i`, and the index just after it. */
  function ParseValue(s: string, i: nat): (r: Option<(JVal, nat)>)
    requires i <= |s|
    ensures r.Some? ==> i < r.value.1 <= |s|
    decreases |s| - i, 1
  {
    if i == |s| then None
    else
      var c := s[i];
      if c == '{' then ParseObject(s, i)
      else if c == '[' then ParseArray(s, i)
      else if c == '"' then
        match ParseChars(s, i + 1, "")
        case Some((str, j)) => Some((JStr(str), j))
        case None => None
      else if LiteralAt(s, i, "null") then Some((JNull, i + 4))
      else if LiteralAt(s, i, "true") then Some((JBool(true), i + 4))
      else if LiteralAt(s, i, "false") then Some((JBool(false), i + 5))
      else if LiteralAt(s, i, "NaN") then Some((JFloat("NaN"), i + 3))
      else if LiteralAt(s, i, "Infinity") then Some((JFloat("Infinity"), i + 8))
      else if LiteralAt(s, i, "-Infinity") then Some((JFloat("-Infinity"), i + 9))
      else if c == '-' || IsDigit(c) then ParseNumber(s, i)
      else None
  }

  function ParseObject(s: string, i: nat): (r: Option<(JVal, nat)>)
    requires i < |s| && s[i] == '{'
    ensures r.Some? ==> i < r.value.1 <= |s| && r.value.0.JObj?
    decreases |s| - i, 0
  {
    var j := SkipSpace(s, i + 1);
    if j < |s| && s[j] == '}' then Some((JObj([]), j + 1))
    else
      match ParseMembers(s, j, [])
      case Some((members, k)) => Some((JObj(members), k))
      case None => None
  }

  /** One `"key": value` pair starting at `i`, and the index just after the value. */
  function ParseMember(s: string, i: nat): (r: Option<((string, JVal), nat)>)
    requires i <= |s|
    ensures r.Some? ==> i < r.value.1 <= |s|
    decreases |s| - i, 1
  {
    if i < |s| && s[i] == '"' then
      match ParseChars(s, i + 1, "")
      case None => None
      case Some((key, k1)) =>
        var k2 := SkipSpace(s, k1);
        if k2 < |s| && s[k2] == ':' then
          match ParseValue(s, SkipSpace(s, k2 + 1))
          case None => None
          case Some((v, k3)) => Some(((key, v), k3))
        else None
    else None
  }

  /** Pairs separated by commas, up to and including the closing `}`. */
  function ParseMembers(s: string, i: nat, acc: seq<(string, JVal)>): (r: Option<(seq<(string, JVal)>, nat)>)
    requires i <= |s|
    ensures r.Some? ==> i < r.value.1 <= |s|
    decreases |s| - i, 2
  {
    match ParseMember(s, i)
    case None => None
    case Some((m, k1)) =>
      var k2 := SkipSpace(s, k1);
      if k2 < |s| && s[k2] == '}' then Some((acc + [m], k2 + 1))
      else if k2 < |s| && s[k2] == ',' then ParseMembers(s, SkipSpace(s, k2 + 1), acc + [m])
      else None
  }

  function ParseArray(s: string, i: nat): (r: Option<(JVal, nat)>)
    requires i < |s| && s[i] == '['
    ensures r.Some? ==> i < r.value.1 <= |s| && r.value.0.JArr?
    decreases |s| - i, 0
  {
    var j := SkipSpace(s, i + 1);
    if j < |s| && s[j] == ']' then Some((JArr([]), j + 1))
    else
      match ParseItems(s, j, [])
      case Some((items, k)) => Some((JArr(items), k))
      case None => None
  }

  /** Values separated by commas, up to and including the closing `]`. */
  function ParseItems(s: string, i: nat, acc: seq<JVal>): (r: Option<(seq<JVal>, nat)>)
    requires i <= |s|
    ensures r.Some? ==> i < r.value.1 <= |s|
    decreases |s| - i, 2
  {
    match ParseValue(s, i)
    case None => None
    case Some((v, k1)) =>
      var k2 := SkipSpace(s, k1);
      if k2 < |s| && s[k2] == ']' then Some((acc + [v], k2 + 1))
      else if k2 < |s| && s[k2] == ',' then ParseItems(s, SkipSpace(s, k2 + 1), acc + [v])
      else None
  }

  /** `json.loads(s)`: one value, with only whitespace around it. */
  function Loads(s: string): Option<JVal> {
    match ParseValue(s, SkipSpace(s, 0))
    case None => None
    case Some((v, j)) => if SkipSpace(s, j) == |s| then Some(v) else None
  }

  // ---------------------------------------------------------------------------
  // A text with a single closing brace cannot decode to a nested object

  /** `v` is an object or holds one somewhere inside. */
  predicate HasObj(v: JVal) {
    match v
    case JObj(_) => true
    case JArr(items) => exists k :: 0 <= k < |items| && HasObj(items[k])
    case _ => false
  }

  predicate CloserIn(s: string, i: int, j: int) {
    exists p :: i <= p < j && 0 <= p < |s| && s[p] == '}'
  }

  lemma CloserWiden(s: string, i: int, j: int, i': int, j': int)
    requires i' <= i && j <= j' && CloserIn(s, i, j)
    ensures CloserIn(s, i', j')
  {
    var p :| i <= p < j && 0 <= p < |s| && s[p] == '}';
    assert i' <= p < j';
  }

  lemma {:induction false} ValueCloser(s: string, i: nat)
    requires i <= |s|
    ensures ParseValue(s, i).Some? && HasObj(ParseValue(s, i).value.0) ==>
              CloserIn(s, i, ParseValue(s, i).value.1)
    decreases |s| - i, 1
  {
    if i < |s| && ParseValue(s, i).Some? {
      var j := ParseValue(s, i).value.1;
      if s[i] == '{' {
        ObjectCloser(s, i);
        assert i <= j - 1 && s[j - 1] == '}';
      } else if s[i] == '[' {
        ArrayCloser(s, i);
      }
    }
  }

  /** A parsed object ends with its `}`; any object inside its values has a `}`
      before that one. */
  lemma {:induction false} ObjectCloser(s: string, i: nat)
    requires i < |s| && s[i] == '{'
    ensures ParseObject(s, i).Some? ==>
              var j := ParseObject(s, i).value.1;
              var ms := ParseObject(s, i).value.0.members;
              s[j - 1] == '}'
              && forall k :: 0 <= k < |ms| && HasObj(ms[k].1) ==> CloserIn(s, i, j - 1)
    decreases |s| - i, 0
  {
    var j := SkipSpace(s, i + 1);
    if !(j < |s| && s[j] == '}') {
      MembersCloser(s, j, []);
      if ParseObject(s, i).Some? {
        var e := ParseObject(s, i).value.1;
        forall k | 0 <= k < |ParseObject(s, i).value.0.members| && HasObj(ParseObject(s, i).value.0.members[k].1)
          ensures CloserIn(s, i, e - 1)
        {
          CloserWiden(s, j, e - 1, i, e - 1);
        }
      }
    }
  }

  lemma {:induction false} ArrayCloser(s: string, i: nat)
    requires i < |s| && s[i] == '['
    ensures ParseArray(s, i).Some? && HasObj(ParseArray(s, i).value.0) ==>
              CloserIn(s, i, ParseArray(s, i).value.1)
    decreases |s| - i, 0
  {
    var j := SkipSpace(s, i + 1);
    if !(j < |s| && s[j] == ']') {
      ItemsCloser(s, j, []);
      if ParseArray(s, i).Some? && HasObj(ParseArray(s, i).value.0) {
        CloserWiden(s, j, ParseArray(s, i).value.1, i, ParseArray(s, i).value.1);
      }
    }
  }

  lemma {:induction false} MemberCloser(s: string, i: nat)
    requires i <= |s|
    ensures ParseMember(s, i).Some? && HasObj(ParseMember(s, i).value.0.1) ==>
              CloserIn(s, i, ParseMember(s, i).value.1)
    decreases |s| - i, 1
  {
    if i < |s| && s[i] == '"' && ParseChars(s, i + 1, "").Some? {
      var k1 := ParseChars(s, i + 1, "").value.1;
      var k2 := SkipSpace(s, k1);
      if k2 < |s| && s[k2] == ':' {
        var k3 := SkipSpace(s, k2 + 1);
        ValueCloser(s, k3);
        if ParseMember(s, i).Some? && HasObj(ParseMember(s, i).value.0.1) {
          CloserWiden(s, k3, ParseMember(s, i).value.1, i, ParseMember(s, i).value.1);
        }
      }
    }
  }

  /** What `ParseMembers(s, i, acc)` returns, when it succeeds: `acc` extended, the
      closing `}` at the end, and a `}` before it for every member holding an object. */
  predicate MembersFacts(s: string, i: int, acc: seq<(string, JVal)>, ms: seq<(string, JVal)>, j: int) {
    |acc| <= |ms| && ms[..|acc|] == acc && 0 < j <= |s| && s[j - 1] == '}'
    && forall k :: |acc| <= k < |ms| && HasObj(ms[k].1) ==> CloserIn(s, i, j - 1)
  }

  lemma {:induction false} MembersCloser(s: string, i: nat, acc: seq<(string, JVal)>)
    requires i <= |s|
    ensures ParseMembers(s, i, acc).Some? ==>
              MembersFacts(s, i, acc, ParseMembers(s, i, acc).value.0, ParseMembers(s, i, acc).value.1)
    decreases |s| - i, 2
  {
    var r := ParseMembers(s, i, acc);
    if r.Some? {
      MemberCloser(s, i);
      var m := ParseMember(s, i).value.0;
      var k1 := ParseMember(s, i).value.1;
      var k2 := SkipSpace(s, k1);
      var ms, j := r.value.0, r.value.1;
      if s[k2] == '}' {
        assert ms == acc + [m] && j - 1 == k2;
        forall k | |acc| <= k < |ms| && HasObj(ms[k].1) ensures CloserIn(s, i, j - 1) {
          assert ms[k] == m;
          CloserWiden(s, i, k1, i, j - 1);
        }
      } else {
        var next := SkipSpace(s, k2 + 1);
        MembersCloser(s, next, acc + [m]);
        assert r == ParseMembers(s, next, acc + [m]);
        MembersExtend(s, i, k1, next, acc, m, ms, j);
      }
    }
  }

  /** The facts after one more member, from the facts about the members after it. */
  lemma MembersExtend(s: string, i: int, k1: int, next: int, acc: seq<(string, JVal)>, m: (string, JVal),
                      ms: seq<(string, JVal)>, j: int)
    requires MembersFacts(s, next, acc + [m], ms, j)
    requires i <= k1 <= next && k1 <= j - 1
    requires HasObj(m.1) ==> CloserIn(s, i, k1)
    ensures MembersFacts(s, i, acc, ms, j)
  {
    var acc' := acc + [m];
    assert ms[..|acc|] == ms[..|acc'|][..|acc|];
    forall k | |acc| <= k < |ms| && HasObj(ms[k].1) ensures CloserIn(s, i, j - 1) {
      if k == |acc| {
        assert ms[k] == ms[..|acc'|][k];
        CloserWiden(s, i, k1, i, j - 1);
      } else {
        CloserWiden(s, next, j - 1, i, j - 1);
      }
    }
  }

  predicate ItemsFacts(s: string, i: int, acc: seq<JVal>, items: seq<JVal>, j: int) {
    |acc| <= |items| && items[..|acc|] == acc
    && forall k :: |acc| <= k < |items| && HasObj(items[k]) ==> CloserIn(s, i, j)
  }

  lemma {:induction false} ItemsCloser(s: string, i: nat, acc: seq<JVal>)
    requires i <= |s|
    ensures ParseItems(s, i, acc).Some? ==>
              ItemsFacts(s, i, acc, ParseItems(s, i, acc).value.0, ParseItems(s, i, acc).value.1)
    decreases |s| - i, 2
  {
    var r := ParseItems(s, i, acc);
    if r.Some? {
      ValueCloser(s, i);
      var v := ParseValue(s, i).value.0;
      var k1 := ParseValue(s, i).value.1;
      var k2 := SkipSpace(s, k1);
      var items, j := r.value.0, r.value.1;
      if s[k2] == ']' {
        assert items == acc + [v];
        forall k | |acc| <= k < |items| && HasObj(items[k]) ensures CloserIn(s, i, j) {
          assert items[k] == v;
          CloserWiden(s, i, k1, i, j);
        }
      } else {
        var next := SkipSpace(s, k2 + 1);
        var acc' := acc + [v];
        ItemsCloser(s, next, acc');
        assert r == ParseItems(s, next, acc');
        assert items[..|acc|] == items[..|acc'|][..|acc|];
        forall k | |acc| <= k < |items| && HasObj(items[k]) ensures CloserIn(s, i, j) {
          if k == |acc| {
            assert items[k] == items[..|acc'|][k];
            CloserWiden(s, i, k1, i, j);
          } else {
            CloserWiden(s, next, j, i, j);
          }
        }
      }
    }
  }

  /** A text that starts with `{` and whose only `}` is its last character decodes,
      if at all, to an object none of whose values is or contains an object. */
  lemma SingleCloserIsFlat(span: string)
    requires |span| >= 2 && span[0] == '{' && span[|span| - 1] == '}'
    requires forall p :: 0 <= p < |span| - 1 ==> span[p] != '}'
    ensures Loads(span).Some? ==>
              Loads(span).value.JObj?
              && forall k :: 0 <= k < |Loads(span).value.members| ==> !HasObj(Loads(span).value.members[k].1)
  {
    assert SkipSpace(span, 0) == 0;
    assert ParseValue(span, 0) == ParseObject(span, 0);
    ObjectCloser(span, 0);
    if Loads(span).Some? {
      var v := ParseObject(span, 0).value.0;
      var e := ParseObject(span, 0).value.1;
      assert Loads(span).value == v;
      assert !CloserIn(span, 0, e - 1);
    }
  }
}
