/**
 JSON text as Go's encoding/json reads and writes it, as far as subscription payloads need it: a parser
 for all of JSON, decoding into struct { Topics []string }, and the encoding of a list of strings.
 */
module Json {
  import opened Wrappers

  /** Numbers, true and false are Other: a subscription payload has no place for them. */
  datatype Json = Str(s: string) | Arr(items: seq<Json>) | Obj(members: seq<(string, Json)>) | Null | Other

  const MAX_DEPTH := 10000

  // ---------- scanning ----------

  function SkipSpace(t: string): (r: string)
    ensures |r| <= |t|
  {
    if t != "" && t[0] in [' ', '\t', '\r', '\n'] then SkipSpace(t[1..]) else t
  }

  predicate StartsWith(t: string, prefix: string) {
    |prefix| <= |t| && t[..|prefix|] == prefix
  }

  function HexDigit(c: char): (r: Option<nat>)
    ensures r.Some? ==> r.value < 16
  {
    if '0' <= c <= '9' then Some((c - '0') as nat)
    else if 'a' <= c <= 'f' then Some((c - 'a') as nat + 10)
    else if 'A' <= c <= 'F' then Some((c - 'A') as nat + 10)
    else None
  }

  /** The four hexadecimal digits after a backslash and u. */
  function Hex4(t: string): (r: Option<nat>)
    ensures r.Some? ==> |t| >= 6 && r.value < 0x1_0000
  {
    if |t| < 6 || t[0] != '\\' || t[1] != 'u' then None
    else
      var a, b, c, d := HexDigit(t[2]), HexDigit(t[3]), HexDigit(t[4]), HexDigit(t[5]);
      if a.None? || b.None? || c.None? || d.None? then None
      else Some(((a.value * 16 + b.value) * 16 + c.value) * 16 + d.value)
  }

  /** What a unicode escape stands for and how many characters it takes; a lone surrogate stands for U+FFFD. */
  function UnicodeEscape(t: string): (r: Option<(char, nat)>)
    ensures r.Some? ==> 6 <= r.value.1 <= |t|
  {
    var u := Hex4(t);
    if u.None? then None
    else if !(0xD800 <= u.value < 0xE000) then Some((u.value as char, 6))
    else
      var low := Hex4(t[6..]);
      if u.value < 0xDC00 && low.Some? && 0xDC00 <= low.value < 0xE000
      then Some(((0x1_0000 + (u.value - 0xD800) * 0x400 + (low.value - 0xDC00)) as char, 12))
      else Some((0xFFFD as char, 6))
  }

  /** The escape at the head of t, which starts with a backslash. */
  function Escape(t: string): (r: Option<(char, nat)>)
    ensures r.Some? ==> 2 <= r.value.1 <= |t|
  {
    if |t| < 2 then None
    else
      match t[1]
      case '\"' => Some(('\"', 2))
      case '\\' => Some(('\\', 2))
      case '/' => Some(('/', 2))
      case 'b' => Some((8 as char, 2))
      case 'f' => Some((12 as char, 2))
      case 'n' => Some(('\n', 2))
      case 'r' => Some(('\r', 2))
      case 't' => Some(('\t', 2))
      case 'u' => UnicodeEscape(t)
      case _ => None
  }

  /** The rest of a string literal whose opening quote has been read; control characters are not allowed in it. */
  function ScanString(t: string): (r: Option<(string, string)>)
    ensures r.Some? ==> |r.value.1| < |t|
  {
    if t == "" || t[0] < ' ' then None
    else if t[0] == '\"' then Some(("", t[1..]))
    else if t[0] == '\\' then
      var e := Escape(t);
      if e.None? then None
      else
        var r := ScanString(t[e.value.1..]);
        if r.None? then None else Some(([e.value.0] + r.value.0, r.value.1))
    else
      var r := ScanString(t[1..]);
      if r.None? then None else Some(([t[0]] + r.value.0, r.value.1))
  }

  function SkipDigits(t: string): (r: string)
    ensures |r| <= |t|
  {
    if t != "" && '0' <= t[0] <= '9' then SkipDigits(t[1..]) else t
  }

  function Digits(t: string): (r: Option<string>)
    ensures r.Some? ==> |r.value| < |t|
  {
    if t != "" && '0' <= t[0] <= '9' then Some(SkipDigits(t)) else None
  }

  function ScanExponent(t: string): (r: Option<string>)
    ensures r.Some? ==> |r.value| <= |t|
  {
    if t != "" && (t[0] == 'e' || t[0] == 'E') then
      if |t| > 1 && (t[1] == '+' || t[1] == '-') then Digits(t[2..]) else Digits(t[1..])
    else Some(t)
  }

  function ScanFraction(t: string): (r: Option<string>)
    ensures r.Some? ==> |r.value| <= |t|
  {
    if t != "" && t[0] == '.' then
      var r := Digits(t[1..]);
      if r.None? then None else ScanExponent(r.value)
    else ScanExponent(t)
  }

  /** The text after a number; a leading zero stands alone. */
  function ScanNumber(t: string): (r: Option<string>)
    ensures r.Some? ==> |r.value| < |t|
  {
    var u := if t != "" && t[0] == '-' then t[1..] else t;
    if u != "" && u[0] == '0' then ScanFraction(u[1..])
    else
      var r := Digits(u);
      if r.None? then None else ScanFraction(r.value)
  }

  // ---------- parsing ----------

  /** A value and the text after it; depth counts the arrays and objects around it. */
  function ParseValue(text: string, depth: nat): (r: Option<(Json, string)>)
    ensures r.Some? ==> |r.value.1| < |text|
    decreases |text|, 1
  {
    var t := SkipSpace(text);
    if t == "" then None
    else if t[0] == '\"' then
      var s := ScanString(t[1..]);
      if s.None? then None else Some((Str(s.value.0), s.value.1))
    else if t[0] == '[' then
      if depth >= MAX_DEPTH then None
      else
        var u := SkipSpace(t[1..]);
        if u != "" && u[0] == ']' then Some((Arr([]), u[1..]))
        else
          var items := ParseItems(t[1..], depth + 1);
          if items.None? then None else Some((Arr(items.value.0), items.value.1))
    else if t[0] == '{' then
      if depth >= MAX_DEPTH then None
      else
        var u := SkipSpace(t[1..]);
        if u != "" && u[0] == '}' then Some((Obj([]), u[1..]))
        else
          var members := ParseMembers(t[1..], depth + 1);
          if members.None? then None else Some((Obj(members.value.0), members.value.1))
    else if StartsWith(t, "null") then Some((Null, t[4..]))
    else if StartsWith(t, "true") then Some((Other, t[4..]))
    else if StartsWith(t, "false") then Some((Other, t[5..]))
    else
      var r := ScanNumber(t);
      if r.None? then None else Some((Other, r.value))
  }

  /** One or more values separated by commas, up to the closing bracket. */
  function ParseItems(text: string, depth: nat): (r: Option<(seq<Json>, string)>)
    ensures r.Some? ==> |r.value.1| < |text|
    decreases |text|, 2
  {
    var first := ParseValue(text, depth);
    if first.None? then None
    else
      var t := SkipSpace(first.value.1);
      if t == "" then None
      else if t[0] == ']' then Some(([first.value.0], t[1..]))
      else if t[0] == ',' then
        var more := ParseItems(t[1..], depth);
        if more.None? then None else Some(([first.value.0] + more.value.0, more.value.1))
      else None
  }

  /** A key and its value. */
  function ParseMember(text: string, depth: nat): (r: Option<((string, Json), string)>)
    ensures r.Some? ==> |r.value.1| < |text|
    decreases |text|, 2
  {
    var t := SkipSpace(text);
    if t == "" || t[0] != '\"' then None
    else
      var key := ScanString(t[1..]);
      if key.None? then None
      else
        var u := SkipSpace(key.value.1);
        if u == "" || u[0] != ':' then None
        else
          var v := ParseValue(u[1..], depth);
          if v.None? then None else Some(((key.value.0, v.value.0), v.value.1))
  }

  /** One or more members separated by commas, up to the closing brace. */
  function ParseMembers(text: string, depth: nat): (r: Option<(seq<(string, Json)>, string)>)
    ensures r.Some? ==> |r.value.1| < |text|
    decreases |text|, 3
  {
    var first := ParseMember(text, depth);
    if first.None? then None
    else
      var t := SkipSpace(first.value.1);
      if t == "" then None
      else if t[0] == '}' then Some(([first.value.0], t[1..]))
      else if t[0] == ',' then
        var more := ParseMembers(t[1..], depth);
        if more.None? then None else Some(([first.value.0] + more.value.0, more.value.1))
      else None
  }

  function ParseText(text: string): Option<Json> {
    var v := ParseValue(text, 0);
    if v.Some? && SkipSpace(v.value.1) == "" then Some(v.value.0) else None
  }

  // ---------- decoding into struct { Topics []string } ----------

  /** Keys match without regard to case; U+017F is a form of s. */
  function FoldChar(c: char): char {
    if 'A' <= c <= 'Z' then (c as int + 32) as char else if c as int == 0x17F then 's' else c
  }

  predicate IsTopicsKey(key: string) {
    |key| == 6 && forall i :: 0 <= i < 6 ==> FoldChar(key[i]) == "topics"[i]
  }

  /** A Go slice: its cells up to its capacity, as far as they are not zero, and its length. */
  datatype Slice = Slice(cells: seq<string>, len: nat)

  predicate AreStrings(items: seq<Json>) {
    forall i :: 0 <= i < |items| ==> items[i].Str? || items[i].Null?
  }

  /** A null item leaves the cell as it was. */
  function Cell(cells: seq<string>, i: nat, item: Json): string {
    if item.Str? then item.s else if i < |cells| then cells[i] else ""
  }

  /** Decoding an array reuses the slice that an earlier member of the same name left. */
  function Fill(slice: Slice, items: seq<Json>): Slice {
    if items == [] then Slice([], 0)
    else
      var filled := seq(|items|, i requires 0 <= i < |items| => Cell(slice.cells, i, items[i]));
      Slice(filled + if |items| < |slice.cells| then slice.cells[|items|..] else [], |items|)
  }

  /** Decodes the members in order; None is a type error. */
  function Decode(members: seq<(string, Json)>): (r: Option<Slice>)
    ensures r.Some? ==> r.value.len <= |r.value.cells|
  {
    if members == [] then Some(Slice([], 0))
    else
      var before, last := Decode(members[..|members| - 1]), members[|members| - 1];
      if before.None? || !IsTopicsKey(last.0) then before
      else
        match last.1
        case Null => Some(Slice([], 0))
        case Arr(items) => if AreStrings(items) then Some(Fill(before.value, items)) else None
        case _ => None
  }

  /** json.Unmarshal into a subscription payload: its topics, or None for an error. */
  function DecodeTopics(text: string): Option<seq<string>> {
    match ParseText(text)
    case None => None
    case Some(Null) => Some([])
    case Some(Obj(members)) =>
      var r := Decode(members);
      if r.None? then None else Some(r.value.cells[..r.value.len])
    case Some(_) => None
  }

  lemma DecodeOne(value: Json)
    ensures Decode([("topics", value)]) ==
      match value
      case Null => Some(Slice([], 0))
      case Arr(items) => if AreStrings(items) then Some(Fill(Slice([], 0), items)) else None
      case _ => None
  {
    var members := [("topics", value)];
    assert members[..0] == [];
    assert forall i :: 0 <= i < 6 ==> FoldChar("topics"[i]) == "topics"[i];
  }

  /** A later member of the name, in whatever case, decodes into the cells of an earlier one; there a null leaves the string that was there. */
  lemma LaterMemberReusesCells(a: string, b: string, c: string)
    ensures Decode([("topics", Arr([Str(a), Str(b)])), ("TOPICS", Arr([Null, Str(c)]))]) == Some(Slice([a, c], 2))
    ensures Decode([("topics", Arr([Str(a), Str(b)])), ("TOPICS", Arr([Str(c)]))]) == Some(Slice([c, b], 1))
  {
    assert forall i :: 0 <= i < 6 ==> FoldChar("topics"[i]) == "topics"[i] && FoldChar("TOPICS"[i]) == "topics"[i];
    DecodeOne(Arr([Str(a), Str(b)]));
    assert Fill(Slice([], 0), [Str(a), Str(b)]) == Slice([a, b], 2);
    var first := [("topics", Arr([Str(a), Str(b)]))];
    LastMember(first, ("TOPICS", Arr([Null, Str(c)])));
    LastMember(first, ("TOPICS", Arr([Str(c)])));
    assert Fill(Slice([a, b], 2), [Null, Str(c)]) == Slice([a, c], 2);
    assert Fill(Slice([a, b], 2), [Str(c)]) == Slice([c, b], 1);
    assert first + [("TOPICS", Arr([Null, Str(c)]))] == [("topics", Arr([Str(a), Str(b)])), ("TOPICS", Arr([Null, Str(c)]))];
    assert first + [("TOPICS", Arr([Str(c)]))] == [("topics", Arr([Str(a), Str(b)])), ("TOPICS", Arr([Str(c)]))];
  }

  lemma LastMember(members: seq<(string, Json)>, last: (string, Json))
    requires Decode(members).Some? && IsTopicsKey(last.0) && last.1.Arr? && AreStrings(last.1.items)
    ensures Decode(members + [last]) == Some(Fill(Decode(members).value, last.1.items))
  {
    assert (members + [last])[..|members|] == members;
  }

  function Strings(topics: seq<string>): seq<Json> {
    seq(|topics|, i requires 0 <= i < |topics| => Str(topics[i]))
  }

  /** A single member decodes to its own strings. */
  lemma DecodesTo(text: string, json: Json, topics: seq<string>)
    requires ParseText(text) == Some(Obj([("topics", json)]))
    requires json == if topics == [] then Null else Arr(Strings(topics))
    ensures DecodeTopics(text) == Some(topics)
  {
    DecodeOne(json);
    if topics != [] {
      assert Fill(Slice([], 0), Strings(topics)).cells == topics;
    }
    var r := Decode([("topics", json)]).value;
    assert r.cells[..r.len] == topics;
  }

  // ---------- strings that stand for themselves ----------

  /** No quote, no backslash and no control character. */
  predicate Plain(s: string) {
    forall i :: 0 <= i < |s| ==> s[i] != '\"' && s[i] != '\\' && s[i] >= ' '
  }

  lemma {:induction false} ScanPlain(s: string, rest: string)
    requires Plain(s)
    ensures ScanString(s + "\"" + rest) == Some((s, rest))
  {
    var t := s + "\"" + rest;
    if s == "" {
      assert t[1..] == rest;
    } else {
      ScanPlain(s[1..], rest);
      assert t[1..] == s[1..] + "\"" + rest;
      assert [s[0]] + s[1..] == s;
    }
  }

  /** A literal is longer than what it stands for, except that a plain one only adds the closing quote. */
  lemma {:induction false} ScanShrinks(t: string)
    requires ScanString(t).Some?
    ensures var s, r := ScanString(t).value.0, ScanString(t).value.1;
      |s| + 1 + |r| <= |t| && (|s| + 1 + |r| == |t| ==> Plain(s) && t == s + "\"" + r)
  {
    if t[0] == '\"' {
    } else if t[0] == '\\' {
      ScanShrinks(t[Escape(t).value.1..]);
    } else {
      ScanShrinks(t[1..]);
    }
  }

  // ---------- concatenated text ----------

  /** A subscription payload put together without escaping. */
  function Concatenated(topic: string): string {
    "{\"topics\":[\"" + topic + "\"]}"
  }

  /** No string directly in one of the items, if they are strings, is longer than n. */
  predicate ItemsWithin(items: seq<Json>, n: int) {
    forall i :: 0 <= i < |items| && items[i].Str? ==> |items[i].s| <= n
  }

  predicate MembersWithin(members: seq<(string, Json)>, n: int) {
    forall i :: 0 <= i < |members| && members[i].1.Arr? ==> ItemsWithin(members[i].1.items, n)
  }

  lemma ValueString(text: string, depth: nat)
    requires ParseValue(text, depth).Some? && ParseValue(text, depth).value.0.Str?
    ensures |ParseValue(text, depth).value.0.s| + 2 + |ParseValue(text, depth).value.1| <= |text|
  {
    var t := SkipSpace(text);
    ScanShrinks(t[1..]);
  }

  lemma {:induction false} ItemsBound(text: string, depth: nat)
    requires ParseItems(text, depth).Some?
    ensures ItemsWithin(ParseItems(text, depth).value.0, |text| - 3 - |ParseItems(text, depth).value.1|)
    decreases |text|
  {
    var first := ParseValue(text, depth).value;
    if first.0.Str? {
      ValueString(text, depth);
    }
    var t := SkipSpace(first.1);
    if t[0] == ',' {
      ItemsBound(t[1..], depth);
    }
  }

  /** The strings after the first item are shorter than the text after it by the commas, quotes and brackets. */
  lemma ItemsSplit(text: string, depth: nat)
    requires ParseItems(text, depth).Some?
    ensures ParseValue(text, depth).Some?
    ensures
      var items, first := ParseItems(text, depth).value.0, ParseValue(text, depth).value;
      items != [] && items[0] == first.0 && ItemsWithin(items[1..], |first.1| - 4)
  {
    hide ParseValue;
    var t := SkipSpace(ParseValue(text, depth).value.1);
    if t[0] == ',' {
      ItemsBound(t[1..], depth);
    }
  }

  lemma ValueItems(text: string, depth: nat)
    requires ParseValue(text, depth).Some? && ParseValue(text, depth).value.0.Arr?
    ensures ItemsWithin(ParseValue(text, depth).value.0.items, |text| - 4 - |ParseValue(text, depth).value.1|)
  {
    var t := SkipSpace(text);
    var u := SkipSpace(t[1..]);
    if !(u != "" && u[0] == ']') {
      ItemsBound(t[1..], depth + 1);
    }
  }

  lemma {:induction false} MembersBound(text: string, depth: nat)
    requires ParseMembers(text, depth).Some?
    ensures MembersWithin(ParseMembers(text, depth).value.0, |text| - 4 - |ParseMembers(text, depth).value.1|)
    decreases |text|
  {
    var first := ParseMember(text, depth).value;
    if first.0.1.Arr? {
      var t := SkipSpace(text);
      ValueItems(SkipSpace(ScanString(t[1..]).value.1)[1..], depth);
    }
    var t := SkipSpace(first.1);
    if t[0] == ',' {
      MembersBound(t[1..], depth);
    }
  }

  /** Every decoded cell is empty or one of the strings in the arrays. */
  ghost predicate CellsFrom(cells: seq<string>, members: seq<(string, Json)>) {
    forall c :: c in cells && c != "" ==> Mentions(members, c)
  }

  ghost predicate Mentions(members: seq<(string, Json)>, s: string) {
    exists i, k :: 0 <= i < |members| && members[i].1.Arr? && 0 <= k < |members[i].1.items| && members[i].1.items[k] == Str(s)
  }

  lemma MentionsMore(members: seq<(string, Json)>, s: string)
    requires members != [] && Mentions(members[..|members| - 1], s)
    ensures Mentions(members, s)
  {
    var front := members[..|members| - 1];
    var i, k :| 0 <= i < |front| && front[i].1.Arr? && 0 <= k < |front[i].1.items| && front[i].1.items[k] == Str(s);
    assert members[i] == front[i];
  }

  lemma {:induction false} DecodedCells(members: seq<(string, Json)>)
    requires Decode(members).Some?
    ensures CellsFrom(Decode(members).value.cells, members)
  {
    if members != [] {
      var front, last := members[..|members| - 1], members[|members| - 1];
      DecodedCells(front);
      forall c | c in Decode(members).value.cells && c != "" ensures Mentions(members, c) {
        if c in Decode(front).value.cells {
          MentionsMore(members, c);
        } else {
          var k :| 0 <= k < |last.1.items| && last.1.items[k] == Str(c);
        }
      }
    }
  }

  lemma KeyFirst(key: string, rest: string, depth: nat)
    requires Plain(key)
    ensures ParseMember("\"" + key + "\":" + rest, depth)
      == if ParseValue(rest, depth).None? then None
         else Some(((key, ParseValue(rest, depth).value.0), ParseValue(rest, depth).value.1))
  {
    var text := "\"" + key + "\":" + rest;
    assert text[1..] == key + "\"" + (":" + rest);
    ScanPlain(key, ":" + rest);
    assert (":" + rest)[1..] == rest;
  }

  lemma LiteralFirst(rest: string, depth: nat)
    ensures ParseValue("\"" + rest, depth)
      == if ScanString(rest).None? then None else Some((Str(ScanString(rest).value.0), ScanString(rest).value.1))
  {
    assert ("\"" + rest)[1..] == rest;
  }

  lemma ArrayFirst(rest: string, depth: nat)
    requires depth < MAX_DEPTH
    ensures ParseValue("[\"" + rest, depth)
      == if ParseItems("\"" + rest, depth + 1).None? then None
         else Some((Arr(ParseItems("\"" + rest, depth + 1).value.0), ParseItems("\"" + rest, depth + 1).value.1))
  {
    assert ("[\"" + rest)[1..] == "\"" + rest;
    assert SkipSpace("\"" + rest) == "\"" + rest;
  }

  /** An unescaped payload is an object whose first member is the topics array that starts with the first literal. */
  lemma ConcatenatedParse(topic: string)
    ensures
      var items := ParseItems("\"" + topic + "\"]}", 2);
      var members := ParseMembers(Concatenated(topic)[1..], 1);
      && (ParseText(Concatenated(topic)).Some? ==>
            members.Some? && items.Some? && ParseText(Concatenated(topic)).value == Obj(members.value.0))
      && (items.None? ==> members.None?)
      && (items.Some? ==> ParseMember(Concatenated(topic)[1..], 1) == Some((("topics", Arr(items.value.0)), items.value.1)))
  {
    hide ScanString, ParseItems, ParseMember;
    var rest := topic + "\"]}";
    var text := Concatenated(topic);
    assert "[\"" + rest == "[\"" + topic + "\"]}";
    assert text[1..] == "\"topics\":" + ("[\"" + rest);
    assert "\"" + "topics" + "\":" == "\"topics\":";
    KeyFirst("topics", "[\"" + rest, 1);
    ArrayFirst(rest, 1);
    assert "\"" + rest == "\"" + topic + "\"]}";
    assert SkipSpace(text) == text && SkipSpace(text[1..]) == text[1..];
  }

  /** Without anything to escape, concatenation is encoding. */
  lemma PlainDecodes(topic: string)
    requires Plain(topic)
    ensures DecodeTopics(Concatenated(topic)) == Some([topic])
  {
    var rest := topic + "\"]}";
    var text := Concatenated(topic);
    hide ParseValue, ParseText, DecodeTopics;
    var value := "[\"" + rest;
    PlainArray(topic);
    assert text == "{\"topics\":" + value;
    assert [Str(topic)] == Strings([topic]);
    OneMember(text, value, Arr([Str(topic)]));
    DecodesTo(text, Arr([Str(topic)]), [topic]);
  }

  lemma PlainArray(topic: string)
    requires Plain(topic)
    ensures ParseValue("[\"" + (topic + "\"]}"), 1) == Some((Arr([Str(topic)]), "}"))
  {
    var rest := topic + "\"]}";
    assert rest == topic + "\"" + "]}";
    ScanPlain(topic, "]}");
    LiteralFirst(rest, 2);
    assert "]}"[1..] == "}";
    assert ParseItems("\"" + rest, 2) == Some(([Str(topic)], "}")) by {
      hide ParseValue, ScanString;
    }
    ArrayFirst(rest, 1);
  }

  /** Strings in the array that starts with the first literal: that literal, and shorter ones. */
  lemma FirstItems(rest: string, s: string)
    requires ParseItems("\"" + rest, 2).Some? && Str(s) in ParseItems("\"" + rest, 2).value.0
    ensures ScanString(rest).Some? && (|s| + 3 < |rest| || s == ScanString(rest).value.0)
  {
    hide ParseItems, ParseValue, ScanString;
    ItemsSplit("\"" + rest, 2);
    LiteralFirst(rest, 2);
    ScanShrinks(rest);
    var items := ParseItems("\"" + rest, 2).value.0;
    var k :| 0 <= k < |items| && items[k] == Str(s);
    if k > 0 {
      assert items[1..][k - 1] == Str(s);
    }
  }

  /** That array ends and so does the object, so the first literal leaves two characters at least. */
  lemma FirstLeavesTwo(topic: string)
    requires ParseItems("\"" + topic + "\"]}", 2).Some? && ParseItems("\"" + topic + "\"]}", 2).value.1 != ""
    ensures ScanString(topic + "\"]}").Some? && |ScanString(topic + "\"]}").value.1| >= 2
    ensures |ParseItems("\"" + topic + "\"]}", 2).value.1| <= |topic| + 1
  {
    var rest := topic + "\"]}";
    assert "\"" + rest == "\"" + topic + "\"]}";
    LiteralFirst(rest, 2);
    ScanShrinks(rest);
  }

  /** The strings after the first literal are all shorter than the topic that they are part of. */
  lemma SmuggledAreShorter(topic: string, s: string)
    requires ParseText(Concatenated(topic)).Some? && ParseText(Concatenated(topic)).value.Obj?
    requires Mentions(ParseText(Concatenated(topic)).value.members, s)
    ensures ScanString(topic + "\"]}").Some?
    ensures |s| < |topic| || (s == ScanString(topic + "\"]}").value.0 && |ScanString(topic + "\"]}").value.1| >= 2)
  {
    hide ParseText, ScanString, Concatenated;
    ConcatenatedParse(topic);
    var members := ParseText(Concatenated(topic)).value.members;
    var items := ParseItems("\"" + topic + "\"]}", 2).value;
    LaterMembers(topic);
    FirstLeavesTwo(topic);
    var i, k :| 0 <= i < |members| && members[i].1.Arr? && 0 <= k < |members[i].1.items| && members[i].1.items[k] == Str(s);
    if i == 0 {
      assert Str(s) in items.0;
      assert "\"" + (topic + "\"]}") == "\"" + topic + "\"]}";
      FirstItems(topic + "\"]}", s);
    }
  }

  lemma LaterMembers(topic: string)
    requires ParseText(Concatenated(topic)).Some?
    ensures
      var items := ParseItems("\"" + topic + "\"]}", 2);
      var members := ParseMembers(Concatenated(topic)[1..], 1);
      && members.Some? && items.Some? && items.value.1 != ""
      && members.value.0 != [] && members.value.0[0].1 == Arr(items.value.0)
      && MembersWithin(members.value.0[1..], |items.value.1| - 5)
  {
    hide ParseItems, ParseValue, ParseMember;
    ConcatenatedParse(topic);
    var items := ParseItems("\"" + topic + "\"]}", 2).value;
    var u := SkipSpace(items.1);
    if u[0] == ',' {
      MembersBound(u[1..], 1);
    }
  }

  /** The decoded topics contain the topic only if it needs no escaping. */
  lemma OnlyPlainDecodes(topic: string)
    requires DecodeTopics(Concatenated(topic)).Some? && topic in DecodeTopics(Concatenated(topic)).value
    ensures Plain(topic)
  {
    if topic != "" {
      ConcatenatedParse(topic);
      var members := ParseText(Concatenated(topic)).value.members;
      DecodedCells(members);
      SmuggledAreShorter(topic, topic);
      ScanShrinks(topic + "\"]}");
    }
  }

  // ---------- Go strings ----------

  type HighByte = b: int | 0x80 <= b < 0x100 witness 0xFF

  /** What a Go string is made of, read from left to right: characters, and bytes that are not part of valid UTF-8. */
  datatype Unit = Rune(c: char) | BadByte(b: HighByte)

  type GoString = seq<Unit>

  /** Text that came out of decoding is always valid. */
  function FromText(s: string): GoString {
    seq(|s|, i requires 0 <= i < |s| => Rune(s[i]))
  }

  /** As the JSON decoder reads it: it takes each bad byte for U+FFFD. */
  function ReadText(g: GoString): string {
    seq(|g|, i requires 0 <= i < |g| => if g[i].Rune? then g[i].c else 0xFFFD as char)
  }

  predicate Valid(g: GoString) {
    forall i :: 0 <= i < |g| ==> g[i].Rune?
  }

  /** Valid UTF-8 without quote, backslash and control characters. */
  predicate Unescaped(g: GoString) {
    Valid(g) && Plain(ReadText(g))
  }

  lemma ValidExactly(g: GoString, s: string)
    ensures FromText(s) == g <==> Valid(g) && s == ReadText(g)
  {
    if FromText(s) == g {
      assert forall i :: 0 <= i < |g| ==> g[i] == Rune(s[i]);
      assert s == ReadText(g);
    }
    if Valid(g) && s == ReadText(g) {
      assert forall i :: 0 <= i < |g| ==> FromText(s)[i] == g[i];
    }
  }

  /** What the server reads from the payload that is put together for this topic. */
  function Said(topic: GoString): Option<seq<string>> {
    DecodeTopics(Concatenated(ReadText(topic)))
  }

  /** A topic that needs escaping or is not valid is never among what the server reads. */
  lemma OnlyUnescapedIsSaid(topic: GoString, t: string)
    requires Said(topic).Some? && t in Said(topic).value && FromText(t) == topic
    ensures Unescaped(topic)
  {
    ValidExactly(topic, t);
    OnlyPlainDecodes(t);
  }

  /** The payload says its topic, and it alone, exactly if the topic is valid UTF-8 without quote, backslash and control characters. */
  lemma ConcatenationIsExact(topic: GoString)
    ensures (exists t :: Said(topic) == Some([t]) && FromText(t) == topic) <==> Unescaped(topic)
  {
    hide Concatenated, DecodeTopics, Plain;
    if Unescaped(topic) {
      PlainDecodes(ReadText(topic));
      ValidExactly(topic, ReadText(topic));
    }
    if t :| Said(topic) == Some([t]) && FromText(t) == topic {
      assert t in Said(topic).value;
      OnlyUnescapedIsSaid(topic, t);
    }
  }

  // ---------- encoding ----------

  const HEX := "0123456789abcdef"

  /** What json.Marshal writes for one character; it escapes for HTML too. */
  function EscapeChar(c: char): string {
    if c == '\"' || c == '\\' then ['\\', c]
    else if c as int == 8 then "\\b"
    else if c as int == 12 then "\\f"
    else if c == '\n' then "\\n"
    else if c == '\r' then "\\r"
    else if c == '\t' then "\\t"
    else if c < ' ' || c == '<' || c == '>' || c == '&' then "\\u00" + [HEX[c as int / 16], HEX[c as int % 16]]
    else if c as int == 0x2028 then "\\u2028"
    else if c as int == 0x2029 then "\\u2029"
    else [c]
  }

  function EscapeAll(s: string): string {
    if s == "" then "" else EscapeChar(s[0]) + EscapeAll(s[1..])
  }

  function Quote(s: string): string {
    "\"" + EscapeAll(s) + "\""
  }

  function QuoteList(topics: seq<string>): string
    requires topics != []
  {
    if |topics| == 1 then Quote(topics[0]) else Quote(topics[0]) + "," + QuoteList(topics[1..])
  }

  /** json.Marshal of a subscription payload; a list without topics is a nil slice. */
  function EncodeTopics(topics: seq<string>): string {
    if topics == [] then "{\"topics\":null}" else "{\"topics\":[" + QuoteList(topics) + "]}"
  }

  lemma HexEscape(c: char, rest: string)
    requires c < ' ' || c == '<' || c == '>' || c == '&'
    ensures UnicodeEscape("\\u00" + [HEX[c as int / 16], HEX[c as int % 16]] + rest) == Some((c, 6))
  {
    var hi, lo := c as int / 16, c as int % 16;
    assert HexDigit(HEX[hi]) == Some(hi) && HexDigit(HEX[lo]) == Some(lo);
  }

  /** An escape at the head reads as the character it stands for. */
  lemma EscapeHead(c: char, rest: string)
    requires EscapeChar(c) != [c]
    ensures Escape(EscapeChar(c) + rest) == Some((c, |EscapeChar(c)|)) && EscapeChar(c)[0] == '\\'
  {
    if EscapeChar(c)[1] == 'u' {
      UnicodeHead(c, rest);
    }
  }

  lemma UnicodeHead(c: char, rest: string)
    requires EscapeChar(c) != [c] && EscapeChar(c)[1] == 'u'
    ensures |EscapeChar(c)| == 6 && UnicodeEscape(EscapeChar(c) + rest) == Some((c, 6))
  {
    if c as int < 0x2028 {
      HexEscape(c, rest);
    }
  }

  lemma ScanEscaped(c: char, rest: string)
    ensures ScanString(EscapeChar(c) + rest)
      == if ScanString(rest).None? then None else Some(([c] + ScanString(rest).value.0, ScanString(rest).value.1))
  {
    hide UnicodeEscape;
    var t := EscapeChar(c) + rest;
    assert t[|EscapeChar(c)|..] == rest;
    if EscapeChar(c) != [c] {
      EscapeHead(c, rest);
      hide Escape, EscapeChar;
    }
  }

  /** Reading back what was escaped. */
  lemma {:induction false} ScanQuoted(s: string, rest: string)
    ensures ScanString(EscapeAll(s) + "\"" + rest) == Some((s, rest))
  {
    if s == "" {
      assert ("" + "\"" + rest)[1..] == rest;
    } else {
      ScanQuoted(s[1..], rest);
      ScanEscaped(s[0], EscapeAll(s[1..]) + "\"" + rest);
      assert EscapeAll(s) + "\"" + rest == EscapeChar(s[0]) + (EscapeAll(s[1..]) + "\"" + rest);
      assert [s[0]] + s[1..] == s;
    }
  }

  lemma {:induction false} ParseQuotedList(topics: seq<string>, rest: string, depth: nat)
    requires topics != []
    ensures ParseItems(QuoteList(topics) + "]" + rest, depth) == Some((Strings(topics), rest))
  {
    hide ParseValue, Quote;
    var tail := if |topics| == 1 then "]" + rest else "," + (QuoteList(topics[1..]) + "]" + rest);
    QuotedHead(topics[0], tail, depth);
    if |topics| > 1 {
      ParseQuotedList(topics[1..], rest, depth);
      assert QuoteList(topics) + "]" + rest == Quote(topics[0]) + tail;
      assert tail[1..] == QuoteList(topics[1..]) + "]" + rest;
      assert Strings(topics) == [Str(topics[0])] + Strings(topics[1..]);
    } else {
      assert QuoteList(topics) + "]" + rest == Quote(topics[0]) + tail;
      assert tail[1..] == rest;
      assert Strings(topics) == [Str(topics[0])];
    }
  }

  lemma QuotedHead(s: string, tail: string, depth: nat)
    ensures ParseValue(Quote(s) + tail, depth) == Some((Str(s), tail))
  {
    hide EscapeAll, ScanString, ParseValue;
    ScanQuoted(s, tail);
    LiteralFirst(EscapeAll(s) + "\"" + tail, depth);
    assert Quote(s) + tail == "\"" + (EscapeAll(s) + "\"" + tail);
  }

  lemma NonEmptyDecode(topics: seq<string>)
    requires topics != []
    ensures ParseValue("[" + QuoteList(topics) + "]}", 1) == Some((Arr(Strings(topics)), "}"))
  {
    ParseQuotedList(topics, "}", 2);
    var rest := QuoteList(topics)[1..] + "]}";
    assert QuoteList(topics)[0] == '\"';
    assert "[" + QuoteList(topics) + "]}" == "[\"" + rest;
    assert "\"" + rest == QuoteList(topics) + "]" + "}";
    ArrayFirst(rest, 1);
  }

  /** Decoding undoes encoding, for every list of topics. */
  lemma EncodeDecode(topics: seq<string>)
    ensures DecodeTopics(EncodeTopics(topics)) == Some(topics)
  {
    hide ParseValue, ParseItems, QuoteList;
    var text := EncodeTopics(topics);
    var value := if topics == [] then "null}" else "[" + QuoteList(topics) + "]}";
    var json := if topics == [] then Null else Arr(Strings(topics));
    assert ParseValue(value, 1) == Some((json, "}")) by {
      if topics == [] { NullDecode(); } else { NonEmptyDecode(topics); }
    }
    OneMember(text, value, json);
    DecodesTo(text, json, topics);
  }

  lemma NullDecode()
    ensures ParseValue("null}", 1) == Some((Null, "}"))
  {
    assert StartsWith("null}", "null") && "null}"[4..] == "}";
  }

  lemma OneMember(text: string, value: string, json: Json)
    requires text == "{\"topics\":" + value && ParseValue(value, 1) == Some((json, "}"))
    ensures ParseText(text) == Some(Obj([("topics", json)]))
  {
    hide ScanString;
    assert text[1..] == "\"topics\":" + value;
    assert "\"" + "topics" + "\":" == "\"topics\":";
    KeyFirst("topics", value, 1);
    assert SkipSpace("}") == "}" && "}"[1..] == "";
    assert SkipSpace(text) == text && SkipSpace(text[1..]) == text[1..];
    assert ParseMembers(text[1..], 1) == Some(([("topics", json)], ""));
  }

  /** An object whose two values are marshalled strings parses to those two members. */
  lemma TwoMembers(key: string, a: string, key': string, b: string)
    requires Plain(key) && Plain(key')
    ensures ParseText("{\"" + key + "\":" + Quote(a) + ",\"" + key' + "\":" + Quote(b) + "}")
         == Some(Obj([(key, Str(a)), (key', Str(b))]))
  {
    hide ParseValue, ParseMember, Quote, Plain, ScanString;
    var last := "\"" + key' + "\":" + (Quote(b) + "}");
    var first := "\"" + key + "\":" + (Quote(a) + ("," + last));
    var text := "{\"" + key + "\":" + Quote(a) + ",\"" + key' + "\":" + Quote(b) + "}";
    assert text[1..] == first;
    QuotedHead(a, "," + last, 1);
    KeyFirst(key, Quote(a) + ("," + last), 1);
    QuotedHead(b, "}", 1);
    KeyFirst(key', Quote(b) + "}", 1);
    assert ("," + last)[1..] == last && SkipSpace("," + last) == "," + last;
    assert SkipSpace("}") == "}" && "}"[1..] == "";
    assert ParseMembers(last, 1) == Some(([(key', Str(b))], ""));
    assert ParseMember(first, 1) == Some(((key, Str(a)), "," + last));
    assert [(key, Str(a))] + [(key', Str(b))] == [(key, Str(a)), (key', Str(b))];
    assert ParseMembers(first, 1) == Some(([(key, Str(a)), (key', Str(b))], ""));
    ObjectFirst(first, text);
  }

  lemma ObjectFirst(first: string, text: string)
    requires text == "{" + first && first != "" && first[0] == '\"'
    requires ParseMembers(first, 1).Some? && ParseMembers(first, 1).value.1 == ""
    ensures ParseText(text) == Some(Obj(ParseMembers(first, 1).value.0))
  {
    hide ParseMembers;
    assert text[1..] == first && SkipSpace(text) == text && SkipSpace(first) == first;
  }

  /** What is escaped: quote, backslash, control characters, what is special in HTML, and two line separators. */
  lemma EscapedExactly(c: char)
    ensures EscapeChar(c) == [c] <==> c >= ' ' && c !in ['\"', '\\', '<', '>', '&', 0x2028 as char, 0x2029 as char]
  {
  }

  /** How it is written. */
  lemma EscapesLiterally()
    ensures EscapeChar('\"') == "\\\"" && EscapeChar('\\') == "\\\\"
    ensures EscapeChar('\n') == "\\n" && EscapeChar('\r') == "\\r" && EscapeChar('\t') == "\\t"
    ensures EscapeChar(8 as char) == "\\b" && EscapeChar(12 as char) == "\\f"
    ensures EscapeChar('<') == "\\u003c" && EscapeChar('>') == "\\u003e" && EscapeChar('&') == "\\u0026"
    ensures EscapeChar(0x1F as char) == "\\u001f" && EscapeChar(0x2028 as char) == "\\u2028"
  {
  }

  /** The texts as they go over the wire. */
  lemma TextsLiterally(a: string, b: string)
    ensures EncodeTopics([]) == "{\"topics\":null}"
    ensures Plain(a) ==> Concatenated(a) == "{\"topics\":[\"" + a + "\"]}"
    ensures EncodeTopics([a]) == "{\"topics\":[" + Quote(a) + "]}"
    ensures EncodeTopics([a, b]) == "{\"topics\":[" + Quote(a) + "," + Quote(b) + "]}"
  {
    hide Quote;
    assert [a, b][1..] == [b];
    assert QuoteList([b]) == Quote(b);
    assert QuoteList([a, b]) == Quote(a) + "," + Quote(b);
    assert EncodeTopics([a, b]) == "{\"topics\":[" + (Quote(a) + "," + Quote(b)) + "]}";
  }
}
