/**
Cutting the first JSON object out of free text: a one-pass scanner that counts braces, and the proof that
it finds exactly the object whenever one printed by the grammar of RFC 8259 stands in the text.
 */
module JsonExtract {

  datatype Extraction = Found(text: string) | NoObject | Unbalanced

  // ---------------------------------------------------------------------------------------------
  // What "balanced outside strings" means, without a scanner
  // ---------------------------------------------------------------------------------------------

  /** The text with string literals, and every backslash together with the character it escapes, removed.
      `quoted` says whether the text starts inside a string literal. */
  function Skeleton(s: string, quoted: bool): string
    decreases |s|
  {
    if s == "" then ""
    else if s[0] == '\\' then Skeleton(if |s| == 1 then "" else s[2..], quoted)
    else if s[0] == '"' then Skeleton(s[1..], !quoted)
    else if quoted then Skeleton(s[1..], quoted)
    else [s[0]] + Skeleton(s[1..], quoted)
  }

  /** Opening braces minus closing braces. */
  function Net(s: string): int {
    if s == "" then 0 else Net(s[..|s| - 1]) + Weight(s[|s| - 1])
  }

  function Weight(c: char): int {
    if c == '{' then 1 else if c == '}' then -1 else 0
  }

  function Depth(s: string): int {
    Net(Skeleton(s, false))
  }

  /** The first position of `c` at or after `from`, or -1, as `str.find`. */
  function Find(s: string, c: char, from: nat): (r: int)
    requires from <= |s|
    ensures r == -1 ==> c !in s[from..]
    ensures r != -1 ==> from <= r < |s| && s[r] == c && c !in s[from..r]
    decreases |s| - from
  {
    if from == |s| then -1 else if s[from] == c then from else Find(s, c, from + 1)
  }

  /** The promise: the shortest non-empty stretch from the first `{` in which braces outside strings
      balance; an error exactly when there is none. */
  ghost predicate IsExtraction(content: string, r: Extraction) {
    var start := Find(content, '{', 0);
    if start == -1 then r == NoObject
    else
      var tail := content[start..];
      match r
      case NoObject => false
      case Unbalanced => forall k :: 0 < k <= |tail| ==> Depth(tail[..k]) != 0
      case Found(text) =>
        && text != "" && text <= tail && Depth(text) == 0
        && forall k :: 0 < k < |text| ==> Depth(tail[..k]) != 0
  }

  /** The promise leaves no choice. */
  lemma ExtractionIsUnique(content: string, r: Extraction, r': Extraction)
    requires IsExtraction(content, r) && IsExtraction(content, r')
    ensures r == r'
  {
    var start := Find(content, '{', 0);
    if start != -1 {
      var tail := content[start..];
      if r.Found? {
        assert r.text == tail[..|r.text|];
      }
      if r'.Found? {
        assert r'.text == tail[..|r'.text|];
      }
    }
  }

  // ---------------------------------------------------------------------------------------------
  // Where a scan of a text ends
  // ---------------------------------------------------------------------------------------------

  datatype Mode = Mode(quoted: bool, escaped: bool)

  function EndMode(s: string, quoted: bool): Mode
    decreases |s|
  {
    if s == "" then Mode(quoted, false)
    else if s[0] == '\\' then if |s| == 1 then Mode(quoted, true) else EndMode(s[2..], quoted)
    else if s[0] == '"' then EndMode(s[1..], !quoted)
    else EndMode(s[1..], quoted)
  }

  function NextMode(m: Mode, c: char): Mode {
    if m.escaped then Mode(m.quoted, false)
    else if c == '\\' then Mode(m.quoted, true)
    else if c == '"' then Mode(!m.quoted, false)
    else m
  }

  /** Text read after a complete piece of text is read on its own. */
  lemma {:induction false} SkeletonConcat(a: string, b: string, quoted: bool)
    requires !EndMode(a, quoted).escaped
    ensures Skeleton(a + b, quoted) == Skeleton(a, quoted) + Skeleton(b, EndMode(a, quoted).quoted)
    ensures EndMode(a + b, quoted) == EndMode(b, EndMode(a, quoted).quoted)
    decreases |a|
  {
    if a == "" {
      assert a + b == b;
    } else if a[0] == '\\' {
      assert (a + b)[2..] == a[2..] + b;
      SkeletonConcat(a[2..], b, quoted);
    } else {
      assert (a + b)[1..] == a[1..] + b;
      SkeletonConcat(a[1..], b, if a[0] == '"' then !quoted else quoted);
    }
  }

  /** One more character, in the scanner's own terms. */
  lemma {:induction false} SkeletonSnoc(s: string, c: char, quoted: bool)
    ensures var m := EndMode(s, quoted);
            && Skeleton(s + [c], quoted) == Skeleton(s, quoted) + (if m.escaped || m.quoted || c == '\\' || c == '"' then "" else [c])
            && EndMode(s + [c], quoted) == NextMode(m, c)
    decreases |s|
  {
    if s == "" {
      assert s + [c] == [c];
    } else if s[0] == '\\' {
      if |s| > 1 {
        assert (s + [c])[2..] == s[2..] + [c];
        SkeletonSnoc(s[2..], c, quoted);
      }
    } else {
      assert (s + [c])[1..] == s[1..] + [c];
      SkeletonSnoc(s[1..], c, if s[0] == '"' then !quoted else quoted);
    }
  }

  lemma {:induction false} NetConcat(a: string, b: string)
    ensures Net(a + b) == Net(a) + Net(b)
  {
    if b == "" {
      assert a + b == a;
    } else {
      assert (a + b)[..|a + b| - 1] == a + b[..|b| - 1];
      NetConcat(a, b[..|b| - 1]);
    }
  }

  lemma ScanSnoc(s: string, c: char)
    ensures Depth(s + [c]) == Depth(s) + if EndMode(s, false) == Mode(false, false) then Weight(c) else 0
    ensures EndMode(s + [c], false) == NextMode(EndMode(s, false), c)
  {
    SkeletonSnoc(s, c, false);
    if Skeleton(s + [c], false) != Skeleton(s, false) {
      assert (Skeleton(s, false) + [c])[..|Skeleton(s, false)|] == Skeleton(s, false);
    }
  }

  /** A backslash hides the character after it, inside strings and outside. */
  lemma EscapedIsInvisible(s: string, c: char)
    requires !EndMode(s, false).escaped
    ensures Depth(s + ['\\', c]) == Depth(s) && EndMode(s + ['\\', c], false) == EndMode(s, false)
  {
    ScanSnoc(s, '\\');
    ScanSnoc(s + ['\\'], c);
    assert s + ['\\'] + [c] == s + ['\\', c];
  }

  /** Without quotes and backslashes the depth is simply opening minus closing braces. */
  lemma {:induction false} PlainDepth(s: string)
    requires forall i :: 0 <= i < |s| ==> s[i] != '"' && s[i] != '\\'
    ensures Depth(s) == |Positions(s, '{')| - |Positions(s, '}')| && EndMode(s, false) == Mode(false, false)
  {
    if s != "" {
      var init, k := s[..|s| - 1], |s| - 1;
      PlainDepth(init);
      ScanSnoc(init, s[k]);
      assert s == init + [s[k]];
      PositionsSnoc(init, s[k], '{');
      PositionsSnoc(init, s[k], '}');
    }
  }

  ghost function Positions(s: string, c: char): set<int> {
    set i | 0 <= i < |s| && s[i] == c
  }

  lemma PositionsSnoc(s: string, d: char, c: char)
    ensures |Positions(s + [d], c)| == |Positions(s, c)| + if c == d then 1 else 0
  {
    if c == d {
      assert Positions(s + [d], c) == Positions(s, c) + {|s|};
    } else {
      assert Positions(s + [d], c) == Positions(s, c);
    }
  }

  // ---------------------------------------------------------------------------------------------
  // The scanner
  // ---------------------------------------------------------------------------------------------

  method ExtractJsonObject(content: string) returns (r: Extraction)
    ensures IsExtraction(content, r)
  {
    var start := Find(content, '{', 0);
    if start == -1 {
      return NoObject;
    }
    ghost var tail := content[start..];
    var braceCount := 0;
    var inString := false;
    var escapeNext := false;
    var i := start;
    while i < |content|
      invariant start <= i <= |content|
      invariant EndMode(tail[..i - start], false) == Mode(inString, escapeNext)
      invariant Depth(tail[..i - start]) == braceCount
      invariant i > start ==> braceCount > 0
      invariant forall k :: 0 < k <= i - start ==> Depth(tail[..k]) != 0
    {
      var c := content[i];
      ScanSnoc(tail[..i - start], c);
      assert tail[..i - start] + [c] == tail[..i + 1 - start];
      i := i + 1;
      if escapeNext {
        escapeNext := false;
        continue;
      }
      if c == '\\' {
        escapeNext := true;
        continue;
      }
      if c == '"' && !escapeNext {
        inString := !inString;
        continue;
      }
      if !inString {
        if c == '{' {
          braceCount := braceCount + 1;
        } else if c == '}' {
          braceCount := braceCount - 1;
          if braceCount == 0 {
            assert content[start..i] == tail[..i - start];
            return Found(content[start..i]);
          }
        }
      }
    }
    assert tail[..|tail|] == tail;
    return Unbalanced;
  }

  // ---------------------------------------------------------------------------------------------
  // JSON text, as in RFC 8259: every choice of whitespace, escapes and number spelling
  // ---------------------------------------------------------------------------------------------

  /** Section 7: an unescaped character, a two-character escape, or a four-digit escape. */
  datatype StringItem = Plain(c: char) | Escape(c: char) | Unicode(hex: string)
  {
    predicate Valid() {
      match this
      case Plain(c) => c >= ' ' && c != '"' && c != '\\'
      case Escape(c) => c in {'"', '\\', '/', 'b', 'f', 'n', 'r', 't'}
      case Unicode(hex) => |hex| == 4 && forall i :: 0 <= i < 4 ==> HexDigit(hex[i])
    }

    function Print(): string {
      match this
      case Plain(c) => [c]
      case Escape(c) => ['\\', c]
      case Unicode(hex) => ['\\', 'u'] + hex
    }
  }

  datatype Json =
    | Literal(text: string)
    | Number(text: string)
    | Str(items: seq<StringItem>)
    | Arr(blank: string, elements: Elements)
    | Obj(blank: string, members: Members)

  /** Section 5; whitespace stands on both sides of every value. */
  datatype Elements = NoElements | Element(lead: string, value: Json, trail: string, rest: Elements)

  /** Section 4; whitespace stands around the name, the colon and the value. */
  datatype Members =
    | NoMembers
    | Member(lead: string, name: seq<StringItem>, beforeColon: string, afterColon: string, value: Json, trail: string,
             rest: Members)

  predicate Digit(c: char) {
    '0' <= c <= '9'
  }

  predicate HexDigit(c: char) {
    Digit(c) || 'a' <= c <= 'f' || 'A' <= c <= 'F'
  }

  predicate Whitespace(s: string) {
    forall i :: 0 <= i < |s| ==> s[i] == ' ' || s[i] == '\t' || s[i] == '\n' || s[i] == '\r'
  }

  predicate ItemsValid(items: seq<StringItem>) {
    forall i :: 0 <= i < |items| ==> items[i].Valid()
  }

  /** Section 6 spells numbers with these characters only. */
  predicate NumberText(s: string) {
    forall i :: 0 <= i < |s| ==> Digit(s[i]) || s[i] == '+' || s[i] == '-' || s[i] == '.' || s[i] == 'e' || s[i] == 'E'
  }

  predicate Valid(v: Json) {
    match v
    case Literal(text) => text in {"true", "false", "null"}
    case Number(text) => NumberText(text)
    case Str(items) => ItemsValid(items)
    case Arr(blank, elements) => Whitespace(blank) && ElementsValid(elements)
    case Obj(blank, members) => Whitespace(blank) && MembersValid(members)
  }

  predicate ElementsValid(es: Elements) {
    match es
    case NoElements => true
    case Element(lead, value, trail, rest) =>
      Whitespace(lead) && Valid(value) && Whitespace(trail) && ElementsValid(rest)
  }

  predicate MembersValid(ms: Members) {
    match ms
    case NoMembers => true
    case Member(lead, name, beforeColon, afterColon, value, trail, rest) =>
      && Whitespace(lead) && ItemsValid(name) && Whitespace(beforeColon) && Whitespace(afterColon)
      && Valid(value) && Whitespace(trail) && MembersValid(rest)
  }

  function PrintItems(items: seq<StringItem>): string {
    if items == [] then "" else items[0].Print() + PrintItems(items[1..])
  }

  function Quoted(items: seq<StringItem>): string {
    "\"" + PrintItems(items) + "\""
  }

  function Print(v: Json): string {
    match v
    case Literal(text) => text
    case Number(text) => text
    case Str(items) => Quoted(items)
    case Arr(blank, elements) => "[" + (blank + PrintElements(elements, "")) + "]"
    case Obj(blank, members) => "{" + (blank + PrintMembers(members, "")) + "}"
  }

  function PrintElements(es: Elements, separator: string): string {
    match es
    case NoElements => ""
    case Element(lead, value, trail, rest) =>
      separator + (lead + (Print(value) + (trail + PrintElements(rest, ","))))
  }

  function PrintMembers(ms: Members, separator: string): string {
    match ms
    case NoMembers => ""
    case Member(lead, name, beforeColon, afterColon, value, trail, rest) =>
      separator + (lead + (Quoted(name) + (Colon(beforeColon, afterColon)
      + (Print(value) + (trail + PrintMembers(rest, ","))))))
  }

  function Colon(before: string, after: string): string {
    before + ":" + after
  }

  // ---------------------------------------------------------------------------------------------
  // Printed values are neutral to the scanner
  // ---------------------------------------------------------------------------------------------

  /** Starts and ends outside strings, closes what it opens, and never closes more than it opened. */
  ghost predicate Neutral(s: string) {
    && EndMode(s, false) == Mode(false, false)
    && Depth(s) == 0
    && forall k :: 0 <= k <= |s| ==> Depth(s[..k]) >= 0
  }

  lemma DepthConcat(a: string, b: string)
    requires EndMode(a, false) == Mode(false, false)
    ensures Depth(a + b) == Depth(a) + Depth(b)
  {
    SkeletonConcat(a, b, false);
    NetConcat(Skeleton(a, false), Skeleton(b, false));
  }

  lemma NeutralConcat(a: string, b: string)
    requires Neutral(a) && Neutral(b)
    ensures Neutral(a + b)
  {
    SkeletonConcat(a, b, false);
    DepthConcat(a, b);
    forall k | 0 <= k <= |a + b|
      ensures Depth((a + b)[..k]) >= 0
    {
      if k <= |a| {
        assert (a + b)[..k] == a[..k];
      } else {
        assert (a + b)[..k] == a + b[..k - |a|];
        DepthConcat(a, b[..k - |a|]);
      }
    }
  }

  predicate Inert(s: string) {
    forall i :: 0 <= i < |s| ==> s[i] != '"' && s[i] != '\\' && s[i] != '{' && s[i] != '}'
  }

  lemma {:induction false} InertIsNeutral(s: string)
    requires Inert(s)
    ensures Neutral(s)
  {
    if s == "" {
      assert s[..0] == "";
    } else {
      var init, c := s[..|s| - 1], s[|s| - 1];
      InertIsNeutral(init);
      ScanSnoc(init, c);
      assert s == init + [c];
      forall k | 0 <= k <= |s|
        ensures Depth(s[..k]) >= 0
      {
        if k < |s| {
          assert s[..k] == init[..k];
        } else {
          assert s[..k] == s;
        }
      }
    }
  }

  /** Inside a string literal the scanner sees nothing, whatever braces, quotes and escapes it holds. */
  lemma {:induction false} ItemsAreInvisible(items: seq<StringItem>)
    requires ItemsValid(items)
    ensures EndMode(PrintItems(items), true) == Mode(true, false)
    ensures forall k :: 0 <= k <= |PrintItems(items)| ==> Skeleton(PrintItems(items)[..k], true) == ""
  {
    if items != [] {
      var head, rest := items[0].Print(), PrintItems(items[1..]);
      ItemIsInvisible(items[0]);
      ItemsAreInvisible(items[1..]);
      SkeletonConcat(head, rest, true);
      forall k | 0 <= k <= |head + rest|
        ensures Skeleton((head + rest)[..k], true) == ""
      {
        if k <= |head| {
          assert (head + rest)[..k] == head[..k];
        } else {
          assert (head + rest)[..k] == head + rest[..k - |head|];
          assert head[..|head|] == head;
          SkeletonConcat(head, rest[..k - |head|], true);
        }
      }
    }
  }

  lemma ItemIsInvisible(item: StringItem)
    requires item.Valid()
    ensures EndMode(item.Print(), true) == Mode(true, false)
    ensures forall k :: 0 <= k <= |item.Print()| ==> Skeleton(item.Print()[..k], true) == ""
  {
    match item
    case Plain(c) =>
    case Escape(c) =>
    case Unicode(hex) =>
      UnicodeIsInvisible(hex);
  }

  lemma UnicodeIsInvisible(hex: string)
    requires forall i :: 0 <= i < |hex| ==> HexDigit(hex[i])
    ensures EndMode(['\\', 'u'] + hex, true) == Mode(true, false)
    ensures forall k :: 0 <= k <= |hex| + 2 ==> Skeleton((['\\', 'u'] + hex)[..k], true) == ""
  {
    var s := ['\\', 'u'] + hex;
    PlainTailIsInvisible(hex);
    assert s[2..] == hex;
    forall k | 0 <= k <= |s|
      ensures Skeleton(s[..k], true) == ""
    {
      if k >= 2 {
        assert s[..k][2..] == hex[..k - 2];
      }
    }
  }

  lemma {:induction false} PlainTailIsInvisible(s: string)
    requires forall i :: 0 <= i < |s| ==> s[i] != '\\' && s[i] != '"'
    ensures EndMode(s, true) == Mode(true, false)
    ensures forall k :: 0 <= k <= |s| ==> Skeleton(s[..k], true) == ""
  {
    if s != "" {
      PlainTailIsInvisible(s[1..]);
      forall k | 0 < k <= |s|
        ensures Skeleton(s[..k], true) == ""
      {
        assert s[..k][1..] == s[1..][..k - 1];
      }
    }
  }

  lemma QuotedIsNeutral(items: seq<StringItem>)
    requires ItemsValid(items)
    ensures Neutral(Quoted(items))
  {
    var body := PrintItems(items);
    ItemsAreInvisible(items);
    assert body[..|body|] == body;
    assert Quoted(items)[1..] == body + "\"";
    SkeletonConcat(body, "\"", true);
    forall k | 0 <= k <= |Quoted(items)|
      ensures Depth(Quoted(items)[..k]) >= 0
    {
      var p := Quoted(items)[..k];
      if 0 < k <= |body| + 1 {
        assert p[1..] == body[..k - 1];
      } else if k == |body| + 2 {
        assert p == Quoted(items);
      }
    }
  }

  /** An object's text stays open until its last character. */
  lemma BracedOpensAndCloses(a: string)
    requires Neutral(a)
    ensures Neutral("{" + a + "}")
    ensures forall k :: 0 < k < |a| + 2 ==> Depth(("{" + a + "}")[..k]) > 0
  {
    var s := "{" + a + "}";
    ScanSnoc("", '{');
    assert "" + ['{'] == "{";
    SkeletonConcat("{", a, false);
    DepthConcat("{", a);
    ScanSnoc("{" + a, '}');
    forall k | 0 <= k <= |s|
      ensures 0 < k < |s| ==> Depth(s[..k]) > 0
      ensures k == |s| ==> Depth(s[..k]) == 0
    {
      if 0 < k < |s| {
        assert s[..k] == "{" + a[..k - 1];
        DepthConcat("{", a[..k - 1]);
      } else if k == |s| {
        assert s[..k] == s;
      }
    }
  }

  lemma {:induction false} PrintIsNeutral(v: Json)
    requires Valid(v)
    ensures Neutral(Print(v))
    decreases v, 0
  {
    match v
    case Literal(text) =>
      InertIsNeutral(text);
    case Number(text) =>
      InertIsNeutral(text);
    case Str(items) =>
      QuotedIsNeutral(items);
    case Arr(blank, elements) =>
      ElementsAreNeutral(elements, "");
      BracketedIsNeutral(blank, PrintElements(elements, ""));
    case Obj(blank, members) =>
      InteriorIsNeutral(blank, members);
      BracedOpensAndCloses(blank + PrintMembers(members, ""));
  }

  lemma BracketedIsNeutral(blank: string, a: string)
    requires Whitespace(blank) && Neutral(a)
    ensures Neutral("[" + (blank + a) + "]")
  {
    Prepend(blank, a);
    Prepend("[", blank + a);
    InertIsNeutral("]");
    NeutralConcat("[" + (blank + a), "]");
  }

  lemma {:induction false} InteriorIsNeutral(blank: string, members: Members)
    requires Whitespace(blank) && MembersValid(members)
    ensures Neutral(blank + PrintMembers(members, ""))
    decreases members, 1
  {
    MembersAreNeutral(members, "");
    Prepend(blank, PrintMembers(members, ""));
  }

  lemma {:induction false} ElementsAreNeutral(es: Elements, separator: string)
    requires ElementsValid(es) && Inert(separator)
    ensures Neutral(PrintElements(es, separator))
    decreases es, 0
  {
    match es
    case NoElements =>
      InertIsNeutral("");
    case Element(lead, value, trail, rest) =>
      ElementsAreNeutral(rest, ",");
      PrintIsNeutral(value);
      ValueThenRest(separator, lead, Print(value), trail, PrintElements(rest, ","));
  }

  lemma ValueThenRest(separator: string, lead: string, value: string, trail: string, rest: string)
    requires Inert(separator) && Inert(lead) && Neutral(value) && Inert(trail) && Neutral(rest)
    ensures Neutral(separator + (lead + (value + (trail + rest))))
  {
    Prepend(trail, rest);
    NeutralConcat(value, trail + rest);
    Prepend(lead, value + (trail + rest));
    Prepend(separator, lead + (value + (trail + rest)));
  }

  lemma {:induction false} MembersAreNeutral(ms: Members, separator: string)
    requires MembersValid(ms) && Inert(separator)
    ensures Neutral(PrintMembers(ms, separator))
    decreases ms, 0
  {
    match ms
    case NoMembers =>
      InertIsNeutral("");
    case Member(lead, name, beforeColon, afterColon, value, trail, rest) =>
      MembersAreNeutral(rest, ",");
      PrintIsNeutral(value);
      QuotedIsNeutral(name);
      InertIsNeutral(Colon(beforeColon, afterColon));
      PairThenRest(separator, lead, Quoted(name), Colon(beforeColon, afterColon), Print(value), trail,
                   PrintMembers(rest, ","));
  }

  lemma PairThenRest(separator: string, lead: string, name: string, colon: string, value: string, trail: string, rest: string)
    requires Inert(separator) && Inert(lead) && Neutral(name) && Inert(colon) && Neutral(value) && Inert(trail) && Neutral(rest)
    ensures Neutral(separator + (lead + (name + (colon + (value + (trail + rest))))))
  {
    Prepend(trail, rest);
    NeutralConcat(value, trail + rest);
    Prepend(colon, value + (trail + rest));
    NeutralConcat(name, colon + (value + (trail + rest)));
    Prepend(lead, name + (colon + (value + (trail + rest))));
    Prepend(separator, lead + (name + (colon + (value + (trail + rest)))));
  }

  lemma Prepend(s: string, tail: string)
    requires Inert(s) && Neutral(tail)
    ensures Neutral(s + tail)
  {
    InertIsNeutral(s);
    NeutralConcat(s, tail);
  }

  // ---------------------------------------------------------------------------------------------
  // Main result
  // ---------------------------------------------------------------------------------------------

  /** The first brace opens the extracted stretch, and its partner closes it. */
  lemma FirstBracedPiece(before: string, a: string, after: string)
    requires '{' !in before && Neutral(a)
    ensures IsExtraction(before + ("{" + a + "}") + after, Found("{" + a + "}"))
  {
    var text := "{" + a + "}";
    var content := before + text + after;
    FindFirst(before, text + after, 0);
    assert content == before + (text + after);
    var tail := content[|before|..];
    assert tail == text + after;
    BracedOpensAndCloses(a);
    assert text == tail[..|text|];
    forall k | 0 < k < |text|
      ensures Depth(tail[..k]) != 0
    {
      assert tail[..k] == text[..k];
    }
  }

  lemma {:induction false} FindFirst(before: string, rest: string, from: nat)
    requires from <= |before| && '{' !in before && rest != "" && rest[0] == '{'
    ensures Find(before + rest, '{', from) == |before|
    decreases |before| - from
  {
    if from < |before| {
      assert (before + rest)[from] == before[from];
      FindFirst(before, rest, from + 1);
    }
  }

  /** The extractor returns a printed JSON object's text, out of any surroundings, if and only if that text
      stands at the first brace, whatever braces, quotes and escapes occur inside it. */
  lemma ExtractedIffAtFirstBrace(before: string, v: Json, after: string)
    requires v.Obj? && Valid(v)
    ensures var content := before + Print(v) + after;
            var start := Find(content, '{', 0);
            start != -1 && (IsExtraction(content, Found(Print(v))) <==> Print(v) <= content[start..])
  {
    var text, content := Print(v), before + Print(v) + after;
    assert content[|before|] == '{';
    var start := Find(content, '{', 0);
    assert content[0..] == content;
    if text <= content[start..] {
      InteriorIsNeutral(v.blank, v.members);
      BracedOpensAndCloses(v.blank + PrintMembers(v.members, ""));
      forall k | 0 < k < |text|
        ensures Depth(content[start..][..k]) != 0
      {
        assert content[start..][..k] == text[..k];
      }
    }
  }

  /** So it does whenever no brace opens before the object. */
  lemma ExtractionRecoversObject(before: string, v: Json, after: string, r: Extraction)
    requires v.Obj? && Valid(v)
    requires '{' !in before
    requires IsExtraction(before + Print(v) + after, r)
    ensures r == Found(Print(v))
  {
    InteriorIsNeutral(v.blank, v.members);
    FirstBracedPiece(before, v.blank + PrintMembers(v.members, ""), after);
    ExtractionIsUnique(before + Print(v) + after, r, Found(Print(v)));
  }

  /** And it does not for any object after a placeholder in braces, which is returned instead. */
  lemma EarlierBracesWin(v: Json, after: string, r: Extraction)
    requires v.Obj? && Valid(v)
    requires IsExtraction("{x}" + Print(v) + after, r)
    ensures r == Found("{x}") != Found(Print(v))
  {
    InertIsNeutral("x");
    assert "{" + "x" + "}" == "{x}";
    assert "{x}" + (Print(v) + after) == "{x}" + Print(v) + after;
    OpeningPieceWins("x", Print(v) + after, r);
    NoObjectReadsX(v);
  }

  lemma OpeningPieceWins(a: string, after: string, r: Extraction)
    requires Neutral(a) && IsExtraction("{" + a + "}" + after, r)
    ensures r == Found("{" + a + "}")
  {
    var text := "{" + a + "}";
    assert "" + text + after == text + after;
    FirstBracedPiece("", a, after);
    ExtractionIsUnique(text + after, r, Found(text));
  }

  /** The character after an object's opening brace is white space, a quote or the closing brace. */
  lemma NoObjectReadsX(v: Json)
    requires v.Obj? && Valid(v)
    ensures |Print(v)| >= 2 && Print(v)[1] != 'x'
  {
    var inner := v.blank + PrintMembers(v.members, "");
    assert Print(v)[1] == (inner + "}")[0];
    if v.blank == "" && v.members.Member? {
      var m := v.members;
      assert m.lead != "" ==> PrintMembers(m, "")[0] == m.lead[0];
      assert m.lead == "" ==> PrintMembers(m, "")[0] == Quoted(m.name)[0];
    }
  }

  /** A brace before the object does no harm by itself: the same object twice is found. */
  lemma RepeatedObjectIsFound(v: Json, after: string)
    requires v.Obj? && Valid(v)
    ensures '{' in Print(v) && IsExtraction(Print(v) + Print(v) + after, Found(Print(v)))
  {
    var text := Print(v);
    assert text[0] == '{';
    assert text + text + after == "" + text + (text + after);
    InteriorIsNeutral(v.blank, v.members);
    FirstBracedPiece("", v.blank + PrintMembers(v.members, ""), text + after);
  }
}
