/**
  Cutting the first JSON object out of surrounding text: the depth / in-string /
  escape machine of internal/infrastructure/ai/openai_client.py.

  Two independent readings of the result are proved.  `Balanced` counts braces by
  skipping whole string literals; `Json` is the grammar of RFC 8259 (objects in
  section 4, arrays in section 5, strings in section 7).
 */
module JsonScan {
  import opened Options

  // ----- reference reading: string literals are skipped as one token

  /** Index just past the string literal whose opening quote stands before `i`. */
  function SkipString(s: string, i: nat): (r: nat)
    requires i <= |s|
    ensures i <= r <= |s|
    decreases |s| - i
  {
    if i == |s| then i
    else if s[i] == '\\' then (if i + 1 == |s| then |s| else SkipString(s, i + 2))
    else if s[i] == '"' then i + 1
    else SkipString(s, i + 1)
  }

  /** Opening minus closing braces that stand outside string literals, from `i` on. */
  function Net(s: string, i: nat): int
    requires i <= |s|
    decreases |s| - i
  {
    if i == |s| then 0
    else if s[i] == '"' then Net(s, SkipString(s, i + 1))
    else (if s[i] == '{' then 1 else if s[i] == '}' then -1 else 0) + Net(s, i + 1)
  }

  /** How many backslashes stand directly before `k`, going back no further than `i`. */
  function Backslashes(s: string, i: nat, k: nat): nat
    requires k <= |s|
    decreases k
  {
    if k > i && s[k - 1] == '\\' then 1 + Backslashes(s, i, k - 1) else 0
  }

  /** A quote ends a string literal unless an odd number of backslashes stands before it. */
  predicate Ends(s: string, i: nat, k: int) {
    i <= k < |s| && s[k] == '"' && Backslashes(s, i, k) % 2 == 0
  }

  /** A string literal goes on to the first quote that ends it, or to the end of the text. */
  lemma {:induction false} SkipStringIs(s: string, i: nat)
    requires i <= |s|
    ensures var r := SkipString(s, i);
            || (Ends(s, i, r - 1) && forall k :: i <= k < r - 1 ==> !Ends(s, i, k))
            || (r == |s| && forall k :: i <= k < |s| ==> !Ends(s, i, k))
    decreases |s| - i
  {
    if i < |s| && s[i] != '"' {
      var next := if s[i] == '\\' then i + 2 else i + 1;
      assert s[i] == '\\' && i + 1 < |s| ==> Backslashes(s, i, i + 1) == 1;
      assert forall k :: i <= k < next ==> !Ends(s, i, k);
      if next <= |s| {
        SkipStringIs(s, next);
        forall k | next <= k < |s| ensures Ends(s, next, k) <==> Ends(s, i, k) {
          SameParity(s, i, k);
        }
      }
    }
  }

  lemma {:induction false} SameParity(s: string, i: nat, k: nat)
    requires i < |s|
    requires (if s[i] == '\\' then i + 2 else i + 1) <= k <= |s|
    ensures Backslashes(s, i, k) % 2 == Backslashes(s, if s[i] == '\\' then i + 2 else i + 1, k) % 2
    decreases k
  {
    var next := if s[i] == '\\' then i + 2 else i + 1;
    if k > next {
      SameParity(s, i, k - 1);
    } else if next == i + 2 {
      assert Backslashes(s, i, i + 1) == 1;
    }
  }

  /** Up to the next quote every brace counts; from a quote on, counting resumes after its literal. */
  lemma {:induction false} NetIs(s: string, i: nat, q: nat)
    requires i <= q <= |s| && '"' !in s[i..q]
    ensures Net(s, i) ==
              multiset(s[i..q])['{'] - multiset(s[i..q])['}']
              + if q < |s| && s[q] == '"' then Net(s, SkipString(s, q + 1)) else Net(s, q)
    ensures Net(s, |s|) == 0
    decreases q - i
  {
    if i < q {
      assert s[i..q] == [s[i]] + s[i + 1..q];
      assert s[i] in s[i..q];
      NetIs(s, i + 1, q);
    }
  }

  predicate Balanced(s: string) {
    Net(s, 0) == 0
  }

  /** `r` is the shortest non-empty balanced prefix of the text from its first brace on, or None if there is none. */
  ghost predicate IsFirstObject(text: string, r: Option<string>) {
    match r
    case None =>
      forall start :: IsFirstBrace(text, start) ==> NoneBalanced(text, start, |text|)
    case Some(t) =>
      exists start :: IsFirstBrace(text, start) && IsShortestBalanced(text, start, t)
  }

  predicate IsFirstBrace(text: string, start: int) {
    0 <= start < |text| && text[start] == '{' && forall k :: 0 <= k < start ==> text[k] != '{'
  }

  predicate NoneBalanced(text: string, start: int, end: int)
    requires 0 <= start && end <= |text|
  {
    forall k :: start < k <= end ==> !Balanced(text[start..k])
  }

  predicate IsShortestBalanced(text: string, start: int, t: string)
    requires 0 <= start <= |text|
  {
    && 0 < |t| <= |text| - start
    && t == text[start..start + |t|]
    && Balanced(t)
    && NoneBalanced(text, start, start + |t| - 1)
  }

  /** The reading determines the result. */
  lemma FirstObjectUnique(text: string, r: Option<string>, r': Option<string>)
    requires IsFirstObject(text, r) && IsFirstObject(text, r')
    ensures r == r'
  {
    if r.Some? && r'.Some? {
      var start :| IsFirstBrace(text, start) && IsShortestBalanced(text, start, r.value);
      var start' :| IsFirstBrace(text, start') && IsShortestBalanced(text, start', r'.value);
      assert start == start' && |r.value| == |r'.value|;
    }
  }

  // ----- the scanner

  datatype Scanner = Scanner(depth: int, inString: bool, escape: bool)

  const START := Scanner(0, false, false)

  function Step(st: Scanner, c: char): Scanner {
    if st.inString then
      if st.escape then st.(escape := false)
      else if c == '\\' then st.(escape := true)
      else if c == '"' then st.(inString := false)
      else st
    else if c == '"' then st.(inString := true)
    else if c == '{' then st.(depth := st.depth + 1)
    else if c == '}' then st.(depth := st.depth - 1)
    else st
  }

  function Run(st: Scanner, s: string, i: nat): Scanner
    requires i <= |s|
    decreases |s| - i
  {
    if i == |s| then st else Run(Step(st, s[i]), s, i + 1)
  }

  lemma {:induction false} RunSnoc(st: Scanner, s: string, c: char, i: nat)
    requires i <= |s|
    ensures Run(st, s + [c], i) == Step(Run(st, s, i), c)
    decreases |s| - i
  {
    if i < |s| {
      RunSnoc(Step(st, s[i]), s, c, i + 1);
    }
  }

  lemma {:induction false} RunAppend(st: Scanner, s: string, t: string, i: nat)
    requires i <= |s|
    ensures Run(st, s + t, i) == Run(Run(st, s, i), t, 0)
    decreases |t|
  {
    if t == "" {
      assert s + t == s;
    } else {
      var t' := t[..|t| - 1];
      assert s + t == (s + t') + [t[|t| - 1]] && t == t' + [t[|t| - 1]];
      RunAppend(st, s, t', i);
      RunSnoc(st, s + t', t[|t| - 1], i);
      RunSnoc(Run(st, s, i), t', t[|t| - 1], 0);
    }
  }

  /** The flag machine refines token skipping: its depth is the net brace count. */
  lemma {:induction false} RunCountsBraces(d: int, s: string, i: nat)
    requires i <= |s|
    ensures Run(Scanner(d, false, false), s, i).depth == d + Net(s, i)
    decreases |s| - i
  {
    if i < |s| {
      if s[i] == '"' {
        RunSkipsString(d, s, i + 1);
      } else {
        RunCountsBraces(Step(Scanner(d, false, false), s[i]).depth, s, i + 1);
      }
    }
  }

  lemma {:induction false} RunSkipsString(d: int, s: string, i: nat)
    requires i <= |s|
    ensures Run(Scanner(d, true, false), s, i).depth == d + Net(s, SkipString(s, i))
    decreases |s| - i
  {
    if i < |s| {
      if s[i] == '\\' {
        if i + 1 < |s| {
          assert Run(Scanner(d, true, true), s, i + 1) == Run(Scanner(d, true, false), s, i + 2);
          RunSkipsString(d, s, i + 2);
        } else {
          assert Run(Scanner(d, true, true), s, i + 1) == Scanner(d, true, true);
        }
      } else if s[i] == '"' {
        RunCountsBraces(d, s, i + 1);
      } else {
        RunSkipsString(d, s, i + 1);
      }
    }
  }

  /** `str.find` of one character. */
  method Find(text: string, c: char) returns (start: int)
    ensures start == -1 ==> c !in text
    ensures start != -1 ==> 0 <= start < |text| && text[start] == c && forall k :: 0 <= k < start ==> text[k] != c
  {
    start := 0;
    while start < |text|
      invariant 0 <= start <= |text| && forall k :: 0 <= k < start ==> text[k] != c
    {
      if text[start] == c {
        return;
      }
      start := start + 1;
    }
    start := -1;
  }

  lemma ScanStep(text: string, start: nat, index: nat)
    requires start <= index < |text|
    ensures Run(START, text[start..index + 1], 0) == Step(Run(START, text[start..index], 0), text[index])
    ensures Balanced(text[start..index + 1]) <==> Run(START, text[start..index + 1], 0).depth == 0
  {
    assert text[start..index + 1] == text[start..index] + [text[index]];
    RunSnoc(START, text[start..index], text[index], 0);
    RunCountsBraces(0, text[start..index + 1], 0);
  }

  method ExtractFirstJsonObject(contentText: string) returns (r: Option<string>)
    ensures IsFirstObject(contentText, r)
  {
    var start := Find(contentText, '{');
    if start < 0 {
      return None;
    }
    var depth, inString, escape := 0, false, false;
    var index := start;
    while index < |contentText|
      invariant start <= index <= |contentText|
      invariant Scanner(depth, inString, escape) == Run(START, contentText[start..index], 0)
      invariant if index == start then depth == 0 && !inString else depth >= 1
      invariant NoneBalanced(contentText, start, index)
    {
      var c := contentText[index];
      ScanStep(contentText, start, index);
      index := index + 1;
      if inString {
        if escape {
          escape := false;
        } else if c == '\\' {
          escape := true;
        } else if c == '"' {
          inString := false;
        }
        continue;
      }
      if c == '"' {
        inString := true;
        continue;
      }
      if c == '{' {
        depth := depth + 1;
        continue;
      }
      if c == '}' {
        depth := depth - 1;
        if depth == 0 {
          assert IsShortestBalanced(contentText, start, contentText[start..index]);
          return Some(contentText[start..index]);
        }
      }
    }
    return None;
  }

  // ----- the grammar of RFC 8259

  /** One character of a string literal: unescaped, a two-character escape, or a four-digit escape. */
  datatype Item = Plain(c: char) | Escaped(c: char) | Unicode(hex: string)

  /** A value together with its insignificant white space, so that `Text` is onto the JSON texts. */
  datatype Json =
    | Scalar(text: string)
    | Str(items: seq<Item>)
    | Array(elements: Elements)
    | Object(members: Members)

  datatype Elements =
    | NoElements(space: string)
    | Element(before: string, value: Json, after: string, rest: MoreElements)

  datatype MoreElements = LastElement | NextElement(before: string, value: Json, after: string, rest: MoreElements)

  datatype Members =
    | NoMembers(space: string)
    | Member(before: string, key: seq<Item>, colon: (string, string), value: Json, after: string, rest: MoreMembers)

  datatype MoreMembers =
    | LastMember
    | NextMember(before: string, key: seq<Item>, colon: (string, string), value: Json, after: string, rest: MoreMembers)

  predicate IsSpace(s: string) {
    forall c :: c in s ==> c in " \t\n\r"
  }

  /** Every number of section 6 and the three literal names consist of these characters only. */
  predicate IsScalar(s: string) {
    forall c :: c in s ==> '0' <= c <= '9' || 'a' <= c <= 'z' || c == 'E' || c == '+' || c == '-' || c == '.'
  }

  predicate IsItem(it: Item) {
    match it
    case Plain(c) => ' ' <= c && c != '"' && c != '\\'
    case Escaped(c) =>
      c == '"' || c == '\\' || c == '/' || c == 'b' || c == 'f' || c == 'n' || c == 'r' || c == 't'
    case Unicode(hex) =>
      |hex| == 4 && forall c :: c in hex ==> '0' <= c <= '9' || 'a' <= c <= 'f' || 'A' <= c <= 'F'
  }

  predicate IsJson(j: Json) {
    match j
    case Scalar(text) => IsScalar(text)
    case Str(items) => forall it :: it in items ==> IsItem(it)
    case Array(elements) => (
      match elements
      case NoElements(space) => IsSpace(space)
      case Element(before, value, after, rest) =>
        IsSpace(before) && IsJson(value) && IsSpace(after) && AreMoreElements(rest))
    case Object(members) => (
      match members
      case NoMembers(space) => IsSpace(space)
      case Member(before, key, colon, value, after, rest) =>
        && IsSpace(before) && (forall it :: it in key ==> IsItem(it)) && IsSpace(colon.0) && IsSpace(colon.1)
        && IsJson(value) && IsSpace(after) && AreMoreMembers(rest))
  }

  predicate AreMoreElements(es: MoreElements) {
    match es
    case LastElement => true
    case NextElement(before, value, after, rest) =>
      IsSpace(before) && IsJson(value) && IsSpace(after) && AreMoreElements(rest)
  }

  predicate AreMoreMembers(ms: MoreMembers) {
    match ms
    case LastMember => true
    case NextMember(before, key, colon, value, after, rest) =>
      && IsSpace(before) && (forall it :: it in key ==> IsItem(it)) && IsSpace(colon.0) && IsSpace(colon.1)
      && IsJson(value) && IsSpace(after) && AreMoreMembers(rest)
  }

  function ItemText(it: Item): string {
    match it
    case Plain(c) => [c]
    case Escaped(c) => ['\\', c]
    case Unicode(hex) => "\\u" + hex
  }

  function ItemsText(items: seq<Item>): string {
    if items == [] then "" else ItemText(items[0]) + ItemsText(items[1..])
  }

  function StringText(items: seq<Item>): string {
    "\"" + ItemsText(items) + "\""
  }

  function Text(j: Json): string {
    match j
    case Scalar(text) => text
    case Str(items) => StringText(items)
    case Array(elements) => "[" + ElementsText(elements) + "]"
    case Object(members) => "{" + ObjectBody(members) + "}"
  }

  function ObjectBody(members: Members): string {
    match members
    case NoMembers(space) => space
    case Member(before, key, colon, value, after, rest) =>
      before + StringText(key) + colon.0 + ":" + colon.1 + Text(value) + after + MoreMembersText(rest)
  }

  function ElementsText(elements: Elements): string {
    match elements
    case NoElements(space) => space
    case Element(before, value, after, rest) => before + Text(value) + after + MoreElementsText(rest)
  }

  function MoreElementsText(es: MoreElements): string {
    match es
    case LastElement => ""
    case NextElement(before, value, after, rest) => "," + before + Text(value) + after + MoreElementsText(rest)
  }

  function MoreMembersText(ms: MoreMembers): string {
    match ms
    case LastMember => ""
    case NextMember(before, key, colon, value, after, rest) =>
      "," + before + StringText(key) + colon.0 + ":" + colon.1 + Text(value) + after + MoreMembersText(rest)
  }

  // ----- running the machine over grammatical text

  /** Scanning `t` (inside a string or not) leaves the machine where it was and never dips below its depth. */
  ghost predicate Neutral(inString: bool, t: string) {
    forall d: int :: NeutralAt(Scanner(d, inString, false), t)
  }

  ghost predicate NeutralAt(st: Scanner, t: string) {
    Run(st, t, 0) == st && StaysAbove(st, st.depth, t)
  }

  ghost predicate StaysAbove(st: Scanner, d: int, t: string) {
    forall k :: 0 <= k <= |t| ==> Run(st, t[..k], 0).depth >= d
  }

  lemma StaysAboveConcat(st: Scanner, d: int, a: string, b: string)
    requires StaysAbove(st, d, a) && StaysAbove(Run(st, a, 0), d, b)
    ensures StaysAbove(st, d, a + b)
    ensures Run(st, a + b, 0) == Run(Run(st, a, 0), b, 0)
  {
    RunAppend(st, a, b, 0);
    forall k | 0 <= k <= |a + b| ensures Run(st, (a + b)[..k], 0).depth >= d {
      if k <= |a| {
        assert (a + b)[..k] == a[..k];
      } else {
        assert (a + b)[..k] == a + b[..k - |a|];
        RunAppend(st, a, b[..k - |a|], 0);
      }
    }
  }

  lemma NeutralConcat(inString: bool, a: string, b: string)
    requires Neutral(inString, a) && Neutral(inString, b)
    ensures Neutral(inString, a + b)
  {
    forall d: int ensures NeutralAt(Scanner(d, inString, false), a + b) {
      assert NeutralAt(Scanner(d, inString, false), a) && NeutralAt(Scanner(d, inString, false), b);
      StaysAboveConcat(Scanner(d, inString, false), d, a, b);
    }
  }

  lemma {:induction false} RunPlain(st: Scanner, t: string, i: nat)
    requires i <= |t| && !st.inString && forall c :: c in t ==> c !in "\"{}"
    ensures Run(st, t, i) == st
    decreases |t| - i
  {
    if i < |t| {
      assert t[i] in t;
      RunPlain(st, t, i + 1);
    }
  }

  lemma NeutralPlain(t: string)
    requires forall c :: c in t ==> c !in "\"{}"
    ensures Neutral(false, t)
  {
    forall d: int, k | 0 <= k <= |t| ensures Run(Scanner(d, false, false), t[..k], 0) == Scanner(d, false, false) {
      RunPlain(Scanner(d, false, false), t[..k], 0);
    }
    assert t[..|t|] == t;
  }

  lemma NeutralSpace(t: string)
    requires IsSpace(t)
    ensures Neutral(false, t)
  {
    NeutralPlain(t);
  }

  lemma NeutralItem(it: Item)
    requires IsItem(it)
    ensures Neutral(true, ItemText(it))
  {
    var t := ItemText(it);
    forall d: int ensures NeutralAt(Scanner(d, true, false), t) {
      var st := Scanner(d, true, false);
      forall k | 0 <= k <= |t|
        ensures Run(st, t[..k], 0) == Scanner(d, true, k == 1 && !it.Plain?)
      {
        RunItem(st, it, k);
      }
      assert t[..|t|] == t;
    }
  }

  lemma RunItem(st: Scanner, it: Item, k: nat)
    requires IsItem(it) && k <= |ItemText(it)| && st.inString && !st.escape
    ensures Run(st, ItemText(it)[..k], 0) == st.(escape := k == 1 && !it.Plain?)
    decreases k
  {
    var t := ItemText(it);
    if k > 0 {
      RunItem(st, it, k - 1);
      assert t[..k] == t[..k - 1] + [t[k - 1]];
      RunSnoc(st, t[..k - 1], t[k - 1], 0);
      assert it.Unicode? && k > 2 ==> t[k - 1] in it.hex;
    }
  }

  lemma {:induction false} NeutralItems(items: seq<Item>)
    requires forall it :: it in items ==> IsItem(it)
    ensures Neutral(true, ItemsText(items))
  {
    if items == [] {
      assert forall k :: 0 <= k <= |""| ==> ""[..k] == "";
    } else {
      NeutralItem(items[0]);
      NeutralItems(items[1..]);
      NeutralConcat(true, ItemText(items[0]), ItemsText(items[1..]));
    }
  }

  lemma StaysAboveOne(st: Scanner, d: int, c: char)
    requires st.depth >= d && Step(st, c).depth >= d
    ensures StaysAbove(st, d, [c]) && Run(st, [c], 0) == Step(st, c)
  {
    assert Run(st, [c], 0) == Step(st, c) by { assert Run(Step(st, c), [c], 1) == Step(st, c); }
    forall k | 0 <= k <= 1 ensures Run(st, [c][..k], 0).depth >= d {
      if k == 1 { assert [c][..k] == [c]; }
    }
  }

  lemma NeutralString(items: seq<Item>)
    requires forall it :: it in items ==> IsItem(it)
    ensures Neutral(false, StringText(items))
  {
    NeutralItems(items);
    var body := ItemsText(items);
    forall d: int ensures NeutralAt(Scanner(d, false, false), StringText(items)) {
      assert NeutralAt(Scanner(d, true, false), body);
      StaysAboveOne(Scanner(d, false, false), d, '"');
      StaysAboveOne(Scanner(d, true, false), d, '"');
      StaysAboveConcat(Scanner(d, false, false), d, "\"", body);
      StaysAboveConcat(Scanner(d, false, false), d, "\"" + body, "\"");
    }
  }

  /** Braces around a neutral body: the depth stays above its start until the closing brace. */
  lemma NeutralBraces(body: string)
    requires Neutral(false, body)
    ensures Neutral(false, "{" + body + "}")
    ensures StaysAbove(Scanner(1, false, false), 1, body) && Run(START, "{" + body, 0) == Scanner(1, false, false)
  {
    forall d: int
      ensures NeutralAt(Scanner(d, false, false), "{" + body + "}")
      ensures Run(Scanner(d, false, false), "{" + body, 0) == Scanner(d + 1, false, false)
    {
      assert NeutralAt(Scanner(d + 1, false, false), body);
      StaysAboveOne(Scanner(d, false, false), d, '{');
      StaysAboveOne(Scanner(d + 1, false, false), d, '}');
      StaysAboveConcat(Scanner(d, false, false), d, "{", body);
      StaysAboveConcat(Scanner(d, false, false), d, "{" + body, "}");
    }
    assert NeutralAt(Scanner(1, false, false), body);
  }

  lemma {:induction false} NeutralJson(j: Json)
    requires IsJson(j)
    ensures Neutral(false, Text(j))
    decreases j
  {
    match j
    case Scalar(text) => NeutralPlain(text);
    case Str(items) => NeutralString(items);
    case Array(elements) =>
      NeutralElements(elements);
      NeutralBrackets(ElementsText(elements));
    case Object(members) =>
      NeutralObjectBody(members);
      NeutralBraces(ObjectBody(members));
  }

  lemma {:induction false} NeutralElements(elements: Elements)
    requires IsJson(Array(elements))
    ensures Neutral(false, ElementsText(elements))
    decreases elements
  {
    match elements
    case NoElements(space) => NeutralSpace(space);
    case Element(before, value, after, rest) =>
      NeutralJson(value);
      NeutralMoreElements(rest);
      NeutralElement(before, Text(value), after);
      NeutralConcat(false, before + Text(value) + after, MoreElementsText(rest));
  }

  lemma {:induction false} NeutralMoreElements(es: MoreElements)
    requires AreMoreElements(es)
    ensures Neutral(false, MoreElementsText(es))
    decreases es
  {
    match es
    case LastElement => NeutralPlain("");
    case NextElement(before, value, after, rest) =>
      NeutralJson(value);
      NeutralMoreElements(rest);
      NeutralElement(before, Text(value), after);
      NeutralConcat(false, "," + before + Text(value) + after, MoreElementsText(rest));
  }

  lemma NeutralBrackets(body: string)
    requires Neutral(false, body)
    ensures Neutral(false, "[" + body + "]")
  {
    NeutralPlain("[");
    NeutralPlain("]");
    NeutralConcat(false, "[", body);
    NeutralConcat(false, "[" + body, "]");
  }

  lemma NeutralElement(before: string, value: string, after: string)
    requires IsSpace(before) && Neutral(false, value) && IsSpace(after)
    ensures Neutral(false, before + value + after)
    ensures Neutral(false, "," + before + value + after)
  {
    NeutralSpace(before);
    NeutralSpace(after);
    NeutralConcat(false, before, value);
    NeutralConcat(false, before + value, after);
    NeutralPlain(",");
    NeutralConcat(false, ",", before + value + after);
    assert "," + (before + value + after) == "," + before + value + after;
  }

  lemma NeutralPair(before: string, key: seq<Item>, colon: (string, string), value: string, after: string)
    requires IsSpace(before) && IsSpace(colon.0) && IsSpace(colon.1) && IsSpace(after)
    requires Neutral(false, value) && forall it :: it in key ==> IsItem(it)
    ensures Neutral(false, before + StringText(key) + colon.0 + ":" + colon.1 + value + after)
    ensures Neutral(false, "," + before + StringText(key) + colon.0 + ":" + colon.1 + value + after)
  {
    NeutralSpace(before);
    NeutralString(key);
    NeutralSpace(colon.0);
    NeutralPlain(":");
    NeutralSpace(colon.1);
    NeutralSpace(after);
    NeutralConcat(false, before, StringText(key));
    NeutralConcat(false, before + StringText(key), colon.0);
    NeutralConcat(false, before + StringText(key) + colon.0, ":");
    NeutralConcat(false, before + StringText(key) + colon.0 + ":", colon.1);
    NeutralConcat(false, before + StringText(key) + colon.0 + ":" + colon.1, value);
    var pair := before + StringText(key) + colon.0 + ":" + colon.1 + value;
    NeutralConcat(false, pair, after);
    NeutralPlain(",");
    NeutralConcat(false, ",", pair + after);
    assert "," + (pair + after) == "," + before + StringText(key) + colon.0 + ":" + colon.1 + value + after;
  }

  lemma {:induction false} NeutralObjectBody(members: Members)
    requires IsJson(Object(members))
    ensures Neutral(false, ObjectBody(members))
    decreases members
  {
    match members
    case NoMembers(space) => NeutralSpace(space);
    case Member(before, key, colon, value, after, rest) =>
      NeutralJson(value);
      NeutralMoreMembers(rest);
      NeutralPair(before, key, colon, Text(value), after);
      NeutralConcat(false, before + StringText(key) + colon.0 + ":" + colon.1 + Text(value) + after,
        MoreMembersText(rest));
  }

  lemma {:induction false} NeutralMoreMembers(ms: MoreMembers)
    requires AreMoreMembers(ms)
    ensures Neutral(false, MoreMembersText(ms))
    decreases ms
  {
    match ms
    case LastMember => NeutralPlain("");
    case NextMember(before, key, colon, value, after, rest) =>
      NeutralJson(value);
      NeutralMoreMembers(rest);
      NeutralPair(before, key, colon, Text(value), after);
      NeutralConcat(false, "," + before + StringText(key) + colon.0 + ":" + colon.1 + Text(value) + after,
        MoreMembersText(rest));
  }

  lemma BracePrefixOpen(p: string)
    requires Run(Scanner(1, false, false), p, 0).depth >= 1
    ensures !Balanced("{" + p)
  {
    RunAppend(START, "{", p, 0);
    StaysAboveOne(START, 0, '{');
    RunCountsBraces(0, "{" + p, 0);
  }

  lemma BracesBalanced(body: string)
    requires Neutral(false, "{" + body + "}")
    ensures Balanced("{" + body + "}")
  {
    assert NeutralAt(START, "{" + body + "}");
    RunCountsBraces(0, "{" + body + "}", 0);
  }

  lemma BracesPrefix(body: string, k: int)
    requires 0 < k <= |body| + 1
    ensures ("{" + body + "}")[0..k] == "{" + body[..k - 1]
  {
  }

  lemma BracesShortestBalanced(body: string)
    requires Neutral(false, body)
    ensures IsShortestBalanced("{" + body + "}", 0, "{" + body + "}")
  {
    var t := "{" + body + "}";
    NeutralBraces(body);
    BracesBalanced(body);
    forall k | 0 < k <= |t| - 1 ensures !Balanced(t[0..k]) {
      BracesPrefix(body, k);
      BracePrefixOpen(body[..k - 1]);
    }
    assert t[0..|t|] == t;
  }

  lemma ShortestBalancedShift(prefix: string, t: string, suffix: string)
    requires IsShortestBalanced(t, 0, t)
    ensures IsShortestBalanced(prefix + t + suffix, |prefix|, t)
  {
    var content, start := prefix + t + suffix, |prefix|;
    forall k | 0 <= k <= |t| ensures content[start..start + k] == t[0..k] {}
    forall k | start < k <= start + |t| - 1 ensures !Balanced(content[start..k]) {
      assert content[start..start + (k - start)] == t[0..k - start];
    }
    assert t[0..|t|] == t;
  }

  /** Main result: an object text is cut out exactly, whatever surrounds it. */
  lemma ObjectExtracted(prefix: string, members: Members, suffix: string, r: Option<string>)
    requires '{' !in prefix && IsJson(Object(members))
    requires IsFirstObject(prefix + Text(Object(members)) + suffix, r)
    ensures r == Some(Text(Object(members)))
  {
    var t := Text(Object(members));
    var content := prefix + t + suffix;
    NeutralObjectBody(members);
    BracesShortestBalanced(ObjectBody(members));
    ShortestBalancedShift(prefix, t, suffix);
    assert forall k :: 0 <= k < |prefix| ==> content[k] == prefix[k] != '{';
    assert content[|prefix|] == t[0] == '{';
    assert IsFirstBrace(content, |prefix|);
    FirstObjectUnique(content, r, Some(t));
  }
}
