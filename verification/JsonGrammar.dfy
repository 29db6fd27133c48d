/** Exactly which texts the parser takes, and for what: values written with any gaps between their
    tokens, any escapes in their strings, and perhaps a comma before a closing bracket. */
module JsonGrammar {
  import opened JsonFormat
  import opened JsonRoundTrip

  // ------------------------------------------------------------------ laid-out text

  /** The six characters that std::isspace takes for white space. */
  predicate Gap(s: string) {
    forall i :: 0 <= i < |s| ==> 9 <= s[i] as int <= 13 || s[i] as int == 32
  }

  lemma GapIsBlank(s: string)
    ensures Gap(s) <==> Blank(s)
  {
    forall i | 0 <= i < |s| ensures (9 <= s[i] as int <= 13 || s[i] as int == 32) <==> IsSpace(s[i]) {
      SpaceIs(s[i]);
    }
  }

  lemma SpaceIs(c: char)
    ensures (9 <= c as int <= 13 || c as int == 32) <==> IsSpace(c)
  {
  }

  datatype Piece = Plain(c: char) | Escaped(c: char)

  /** Text of a value with what stands between its tokens.  A comma may stand before the closing
      bracket, and gap is what stands right before that bracket. */
  datatype Laid =
    | LWord(v: Value)
    | LNum(chars: string)
    | LStr(pieces: seq<Piece>)
    | LArr(items: seq<Item>, comma: bool, gap: string)
    | LObj(members: seq<Named>, comma: bool, gap: string)

  datatype Item = Item(before: string, laid: Laid, after: string)

  datatype Named = Named(before: string, key: seq<Piece>, mid: string, gap: string, laid: Laid, after: string)

  predicate GoodPieces(pieces: seq<Piece>) {
    forall i :: 0 <= i < |pieces| ==> pieces[i].Plain? ==> pieces[i].c != '"' && pieces[i].c != '\\'
  }

  ghost predicate WellLaid(l: Laid)
    decreases l
  {
    match l
    case LWord(v) => v.Null? || v.Bool?
    case LNum(chars) => chars != "" && IsDigit(chars[0]) && forall i :: 0 <= i < |chars| ==> InNumber(chars[i])
    case LStr(pieces) => GoodPieces(pieces)
    case LArr(items, comma, gap) =>
      && Gap(gap) && (comma ==> items != [])
      && forall i :: 0 <= i < |items| ==> Gap(items[i].before) && WellLaid(items[i].laid) && Gap(items[i].after)
    case LObj(members, comma, gap) =>
      && Gap(gap) && (comma ==> members != [])
      && forall i :: 0 <= i < |members| ==>
           Gap(members[i].before) && GoodPieces(members[i].key) && Gap(members[i].mid) && Gap(members[i].gap) &&
           WellLaid(members[i].laid) && Gap(members[i].after)
  }

  function PieceText(p: Piece): string {
    if p.Plain? then [p.c] else ['\\', p.c]
  }

  function Quoted(pieces: seq<Piece>): string {
    if pieces == [] then "" else PieceText(pieces[0]) + Quoted(pieces[1..])
  }

  function WordText(v: Value): string {
    if v.Bool? then (if v.b then "true" else "false") else "null"
  }

  function LText(l: Laid): string
    decreases l, 1
  {
    match l
    case LWord(v) => WordText(v)
    case LNum(chars) => chars
    case LStr(pieces) => "\"" + (Quoted(pieces) + "\"")
    case LArr(items, comma, gap) => "[" + (ItemsText(items) + Ending(comma, gap, ']'))
    case LObj(members, comma, gap) => "{" + (MembersText(members) + Ending(comma, gap, '}'))
  }

  function Ending(comma: bool, gap: string, bracket: char): string {
    (if comma then "," else "") + (gap + [bracket])
  }

  function ItemsText(items: seq<Item>): string
    decreases items, 0
  {
    if items == [] then ""
    else
      items[0].before + (LText(items[0].laid) + (items[0].after +
        ((if |items| > 1 then "," else "") + ItemsText(items[1..]))))
  }

  function KeyOf(m: Named): string {
    "\"" + (Quoted(m.key) + ("\"" + (m.mid + (":" + m.gap))))
  }

  function MembersText(members: seq<Named>): string
    decreases members, 0
  {
    if members == [] then ""
    else
      var m := members[0];
      m.before + (KeyOf(m) + (LText(m.laid) + (m.after +
        ((if |members| > 1 then "," else "") + MembersText(members[1..])))))
  }

  // ---------------------------------------------------------------------- meaning

  function Meant(pieces: seq<Piece>): string {
    if pieces == [] then ""
    else (if pieces[0].Plain? then [pieces[0].c] else Unescape(pieces[0].c)) + Meant(pieces[1..])
  }

  function Means(l: Laid): Value
    decreases l, 1
  {
    match l
    case LWord(v) => v
    case LNum(chars) => Num(NumberOf(chars))
    case LStr(pieces) => Str(Meant(pieces))
    case LArr(items, _, _) => Arr(MeanAll(items))
    case LObj(members, _, _) => Obj(MeanMembers(members, []))
  }

  function MeanAll(items: seq<Item>): seq<Value>
    decreases items, 0
  {
    if items == [] then [] else [Means(items[0].laid)] + MeanAll(items[1..])
  }

  /** Of two members with one name the later one counts. */
  function MeanMembers(members: seq<Named>, done: seq<Member>): seq<Member>
    decreases members, 0
  {
    if members == [] then done
    else MeanMembers(members[1..], Put(done, Member(Meant(members[0].key), Means(members[0].laid))))
  }

  /** The escapes of section 7 of RFC 8259 but for \u, which like any other is dropped. */
  lemma EscapesMean(c: char)
    ensures Unescape('"') == "\"" && Unescape('\\') == "\\" && Unescape('/') == "/"
    ensures Unescape('b') == [8 as char] && Unescape('f') == [12 as char]
    ensures Unescape('n') == [10 as char] && Unescape('r') == [13 as char] && Unescape('t') == [9 as char]
    ensures c !in "\"\\/bfnrt" ==> Unescape(c) == ""
  {
    assert "\"\\/bfnrt"[0] == '"' && "\"\\/bfnrt"[1] == '\\' && "\"\\/bfnrt"[2] == '/' && "\"\\/bfnrt"[3] == 'b';
    assert "\"\\/bfnrt"[4] == 'f' && "\"\\/bfnrt"[5] == 'n' && "\"\\/bfnrt"[6] == 'r' && "\"\\/bfnrt"[7] == 't';
  }

  // -------------------------------------------------------- every such text is taken

  lemma PieceRead(p: Piece, x: string, out: string)
    requires p.Plain? ==> p.c != '"' && p.c != '\\'
    ensures ReadChars(PieceText(p) + x, out) == ReadChars(x, out + if p.Plain? then [p.c] else Unescape(p.c))
  {
    var s := PieceText(p) + x;
    if p.Plain? { assert s[1..] == x; } else { assert s[2..] == x; }
  }

  lemma {:induction false} PiecesRead(pieces: seq<Piece>, out: string, rest: string)
    requires GoodPieces(pieces)
    ensures ReadChars(Quoted(pieces) + ("\"" + rest), out) == Ok(out + Meant(pieces), rest)
  {
    if pieces == [] {
      assert Quoted(pieces) + ("\"" + rest) == "\"" + rest && out + "" == out;
    } else {
      var p, tail := pieces[0], pieces[1..];
      var x := Quoted(tail) + ("\"" + rest);
      assert Quoted(pieces) + ("\"" + rest) == PieceText(p) + x;
      var m := if p.Plain? then [p.c] else Unescape(p.c);
      PieceRead(p, x, out);
      PiecesRead(tail, out + m, rest);
      assert out + m + Meant(tail) == out + (m + Meant(tail));
    }
  }

  lemma StringRead(pieces: seq<Piece>, rest: string)
    requires GoodPieces(pieces)
    ensures ReadStr("\"" + (Quoted(pieces) + ("\"" + rest))) == Ok(Meant(pieces), rest)
  {
    var s := "\"" + (Quoted(pieces) + ("\"" + rest));
    assert SkipWhite(s) == s && s[1..] == Quoted(pieces) + ("\"" + rest);
    PiecesRead(pieces, "", rest);
    assert "" + Meant(pieces) == Meant(pieces);
  }

  lemma {:induction false} NumberRead(chars: string, rest: string)
    requires Boundary(rest) && forall i :: 0 <= i < |chars| ==> InNumber(chars[i])
    ensures NumberChars(chars + rest) == chars
  {
    if chars == "" {
      assert chars + rest == rest;
    } else {
      NumberRead(chars[1..], rest);
      assert (chars + rest)[1..] == chars[1..] + rest;
    }
  }

  lemma WordIsRead(v: Value, rest: string)
    requires v.Null? || v.Bool?
    ensures ReadValue(WordText(v) + rest) == Ok(v, rest)
  {
    if v.Null? {
      WordRoundTrip("null", rest, ExpectedNull);
    } else if v.b {
      WordRoundTrip("true", rest, ExpectedBool);
    } else {
      WordRoundTrip("false", rest, ExpectedBool);
    }
  }

  lemma AtomRead(l: Laid, rest: string)
    requires WellLaid(l) && Boundary(rest) && !l.LArr? && !l.LObj?
    ensures ReadValue(LText(l) + rest) == Ok(Means(l), rest)
  {
    match l
    case LWord(v) => WordIsRead(v, rest);
    case LNum(chars) => NumberIsRead(chars, rest);
    case LStr(pieces) =>
      StringRead(pieces, rest);
      QuoteText(Quoted(pieces), rest);
  }

  lemma NumberIsRead(chars: string, rest: string)
    requires chars != "" && IsDigit(chars[0]) && Boundary(rest) && forall i :: 0 <= i < |chars| ==> InNumber(chars[i])
    ensures ReadValue(chars + rest) == Ok(Num(NumberOf(chars)), rest)
  {
    NumberRead(chars, rest);
    assert (chars + rest)[0] == chars[0] && (chars + rest)[|chars|..] == rest;
    assert SkipWhite(chars + rest) == chars + rest;
  }

  lemma Starts(l: Laid, x: string)
    requires WellLaid(l)
    ensures LText(l) != "" && !IsSpace(LText(l)[0]) && LText(l)[0] != ']' && LText(l)[0] != '}'
    ensures SkipWhite(LText(l) + x) == LText(l) + x
  {
  }

  /** After a value comes a gap, a comma or a bracket: nothing a number could go on with. */
  lemma AfterIsBoundary(after: string, y: string)
    requires Gap(after) && y != "" && !InNumber(y[0])
    ensures Boundary(after + y)
  {
    if after != "" { GapIsBlank(after); assert IsSpace(after[0]); } else { assert after + y == y; }
  }

  ghost predicate ItemsWell(items: seq<Item>) {
    forall i :: 0 <= i < |items| ==> Gap(items[i].before) && WellLaid(items[i].laid) && Gap(items[i].after)
  }

  ghost predicate MembersWell(members: seq<Named>) {
    forall i :: 0 <= i < |members| ==> NamedWell(members[i])
  }

  ghost predicate NamedWell(m: Named) {
    Gap(m.before) && GoodPieces(m.key) && Gap(m.mid) && Gap(m.gap) && WellLaid(m.laid) && Gap(m.after)
  }

  lemma ItemsTail(items: seq<Item>)
    requires ItemsWell(items) && items != []
    ensures Gap(items[0].before) && WellLaid(items[0].laid) && Gap(items[0].after) && ItemsWell(items[1..])
  {
  }

  lemma MembersTail(members: seq<Named>)
    requires MembersWell(members) && members != []
    ensures NamedWell(members[0]) && MembersWell(members[1..])
  {
  }

  /** One element, from the gap before it to the one after it. */
  lemma ItemRead(item: Item, y: string, done: seq<Value>)
    requires Gap(item.before) && WellLaid(item.laid) && Gap(item.after) && y != "" && !IsSpace(y[0])
    requires ReadValue(LText(item.laid) + (item.after + y)) == Ok(Means(item.laid), item.after + y)
    ensures ReadElements(item.before + (LText(item.laid) + (item.after + y)), done) ==
      if y[0] == ',' then ReadElements(y[1..], done + [Means(item.laid)])
      else if y[0] == ']' then ReadElements(y, done + [Means(item.laid)])
      else Err(ExpectedCommaOrBracket, y)
  {
    var s := LText(item.laid) + (item.after + y);
    GapIsBlank(item.before);
    GapIsBlank(item.after);
    ReadElementsSkips(item.before, s, done);
    Starts(item.laid, item.after + y);
    ElementRead(s, done, Means(item.laid), item.after + y);
    SkipBlank(item.after, y);
  }

  lemma EndRead(gap: string, rest: string, vals: seq<Value>, members: seq<Member>)
    requires Gap(gap)
    ensures ReadElements(gap + ("]" + rest), vals) == Ok(vals, rest)
    ensures ReadMembers(gap + ("}" + rest), members) == Ok(members, rest)
  {
    GapIsBlank(gap);
    ReadElementsSkips(gap, "]" + rest, vals);
    ReadMembersSkips(gap, "}" + rest, members);
    assert ("]" + rest)[1..] == rest && ("}" + rest)[1..] == rest;
  }

  /** What follows an item: the next ones after a comma, or the end. */
  function AfterItem(more: string, last: bool, comma: bool, gap: string, bracket: char, rest: string): string {
    if !last then "," + (more + (Ending(comma, gap, bracket) + rest))
    else Ending(comma, gap, bracket) + rest
  }

  lemma ItemsSplit(items: seq<Item>, comma: bool, gap: string, rest: string)
    requires items != []
    ensures ItemsText(items) + (Ending(comma, gap, ']') + rest) ==
      items[0].before + (LText(items[0].laid) + (items[0].after +
        AfterItem(ItemsText(items[1..]), |items| == 1, comma, gap, ']', rest)))
  {
    var item := items[0];
    if |items| == 1 {
      SplitLast(item.before, LText(item.laid), item.after, Ending(comma, gap, ']') + rest);
    } else {
      SplitMore(item.before, LText(item.laid), item.after, ItemsText(items[1..]), Ending(comma, gap, ']') + rest);
    }
  }

  lemma SplitLast(a: string, b: string, c: string, e: string)
    ensures (a + (b + (c + ("" + "")))) + e == a + (b + (c + e))
  {
    Regroup4(a, b, c, "" + "", e);
    assert ("" + "") + e == e;
  }

  lemma SplitMore(a: string, b: string, c: string, m: string, e: string)
    ensures (a + (b + (c + ("," + m)))) + e == a + (b + (c + ("," + (m + e))))
  {
    Regroup4(a, b, c, "," + m, e);
    assert ("," + m) + e == "," + (m + e);
  }

  lemma Regroup4(a: string, b: string, c: string, d: string, e: string)
    ensures (a + (b + (c + d))) + e == a + (b + (c + (d + e)))
  {
  }

  lemma EndingText(comma: bool, gap: string, bracket: char, rest: string)
    ensures Ending(comma, gap, bracket) + rest ==
      if comma then "," + (gap + ([bracket] + rest)) else gap + ([bracket] + rest)
  {
  }

  lemma {:induction false} ValueLaid(l: Laid, rest: string)
    requires WellLaid(l) && Boundary(rest)
    ensures ReadValue(LText(l) + rest) == Ok(Means(l), rest)
    decreases l, 1
  {
    match l
    case LArr(items, comma, gap) =>
      assert ItemsWell(items);
      ItemsLaid(items, comma, gap, rest, []);
      assert [] + MeanAll(items) == MeanAll(items);
      ArrayIs(items, comma, gap, rest);
    case LObj(members, comma, gap) =>
      assert MembersWell(members);
      MembersLaid(members, comma, gap, rest, []);
      ObjectIs(members, comma, gap, rest);
      ObjectIsValue(LText(l) + rest);
    case _ => AtomRead(l, rest);
  }

  lemma ArrayIs(items: seq<Item>, comma: bool, gap: string, rest: string)
    requires ReadElements(ItemsText(items) + (Ending(comma, gap, ']') + rest), []) == Ok(MeanAll(items), rest)
    ensures ReadValue(LText(LArr(items, comma, gap)) + rest) == Ok(Arr(MeanAll(items)), rest)
  {
    var more := ItemsText(items) + (Ending(comma, gap, ']') + rest);
    BracketText("[", ItemsText(items), Ending(comma, gap, ']'), rest);
    Bracketed("[", more);
    ArrayStarts("[" + more, "", more, MeanAll(items), rest);
  }

  lemma ObjectIs(members: seq<Named>, comma: bool, gap: string, rest: string)
    requires ReadMembers(MembersText(members) + (Ending(comma, gap, '}') + rest), []) ==
      Ok(MeanMembers(members, []), rest)
    ensures var s := LText(LObj(members, comma, gap)) + rest;
      Peeks(SkipWhite(s), '{') && ReadObject(s) == Ok(Obj(MeanMembers(members, [])), rest)
  {
    var more := MembersText(members) + (Ending(comma, gap, '}') + rest);
    BracketText("{", MembersText(members), Ending(comma, gap, '}'), rest);
    Bracketed("{", more);
    ObjectStarts("{" + more, "", more, MeanMembers(members, []), rest);
  }

  lemma Bracketed(bracket: string, more: string)
    requires |bracket| == 1 && !IsSpace(bracket[0])
    ensures SkipWhite(bracket + more) == bracket + ("" + more)
  {
    assert "" + more == more;
  }

  lemma BracketText(a: string, b: string, c: string, d: string)
    ensures (a + (b + c)) + d == a + (b + (c + d))
  {
  }

  lemma LastItem(item: Item, comma: bool, gap: string, rest: string, done: seq<Value>)
    requires Gap(item.before) && WellLaid(item.laid) && Gap(item.after) && Gap(gap)
    requires var y := AfterItem("", true, comma, gap, ']', rest);
      ReadValue(LText(item.laid) + (item.after + y)) == Ok(Means(item.laid), item.after + y)
    ensures var y := AfterItem("", true, comma, gap, ']', rest);
      ReadElements(item.before + (LText(item.laid) + (item.after + y)), done) == Ok(done + [Means(item.laid)], rest)
  {
    EndingText(comma, gap, ']', rest);
    EndRead(gap, rest, done + [Means(item.laid)], []);
    if comma {
      var y := "," + (gap + ("]" + rest));
      ItemRead(item, y, done);
      assert y[1..] == gap + ("]" + rest);
    } else {
      LastItemPlain(item, gap, rest, done);
    }
  }

  lemma LastItemPlain(item: Item, gap: string, rest: string, done: seq<Value>)
    requires Gap(item.before) && WellLaid(item.laid) && Gap(item.after) && Gap(gap)
    requires var y := gap + ("]" + rest);
      ReadValue(LText(item.laid) + (item.after + y)) == Ok(Means(item.laid), item.after + y)
    ensures var y := gap + ("]" + rest);
      ReadElements(item.before + (LText(item.laid) + (item.after + y)), done) == Ok(done + [Means(item.laid)], rest)
  {
    var item' := item.(after := item.after + gap);
    assert item.after + (gap + ("]" + rest)) == item'.after + ("]" + rest);
    ItemRead(item', "]" + rest, done);
    assert ("]" + rest)[1..] == rest;
  }

  lemma {:induction false} ItemsLaid(items: seq<Item>, comma: bool, gap: string, rest: string, done: seq<Value>)
    requires ItemsWell(items) && Gap(gap) && (comma ==> items != [])
    ensures ReadElements(ItemsText(items) + (Ending(comma, gap, ']') + rest), done) == Ok(done + MeanAll(items), rest)
    decreases items, 0
  {
    EndingText(comma, gap, ']', rest);
    if items == [] {
      EndRead(gap, rest, done, []);
      assert "" + (gap + ("]" + rest)) == gap + ("]" + rest) && done + [] == done;
    } else {
      ItemsTail(items);
      ItemsSplit(items, comma, gap, rest);
      var y := AfterItem(ItemsText(items[1..]), |items| == 1, comma, gap, ']', rest);
      EndIsBoundary(items[0].after, ItemsText(items[1..]), |items| == 1, comma, gap, ']', rest);
      ValueLaid(items[0].laid, items[0].after + y);
      if |items| == 1 {
        LastItem(items[0], comma, gap, rest, done);
        assert MeanAll(items) == [Means(items[0].laid)];
      } else {
        ItemRead(items[0], y, done);
        assert y[1..] == ItemsText(items[1..]) + (Ending(comma, gap, ']') + rest);
        ItemsLaid(items[1..], comma, gap, rest, done + [Means(items[0].laid)]);
        assert done + [Means(items[0].laid)] + MeanAll(items[1..]) == done + MeanAll(items);
      }
    }
  }

  lemma EndIsBoundary(after: string, more: string, last: bool, comma: bool, gap: string, bracket: char, rest: string)
    requires Gap(after) && Gap(gap) && (bracket == ']' || bracket == '}')
    ensures Boundary(after + AfterItem(more, last, comma, gap, bracket, rest))
  {
    var y := AfterItem(more, last, comma, gap, bracket, rest);
    if last && !comma {
      EndingText(comma, gap, bracket, rest);
      GapIsBlank(gap);
      if gap != "" { assert y[0] == gap[0] && IsSpace(gap[0]); }
    }
    AfterIsBoundary(after, y);
  }

  // ------------------------------------------------------------------------ objects

  /** A member's name and colon, after the gap before them. */
  lemma KeyRead(m: Named, x: string)
    requires GoodPieces(m.key) && Gap(m.mid)
    ensures ReadKey(KeyOf(m) + x) == Ok(Meant(m.key), m.gap + x)
  {
    var afterName := m.mid + (":" + (m.gap + x));
    KeyTextSplit(m, x);
    StringRead(m.key, afterName);
    GapIsBlank(m.mid);
    SkipBlank(m.mid, ":" + (m.gap + x));
    assert (":" + (m.gap + x))[1..] == m.gap + x;
  }

  lemma KeyTextSplit(m: Named, x: string)
    ensures KeyOf(m) + x == "\"" + (Quoted(m.key) + ("\"" + (m.mid + (":" + (m.gap + x)))))
  {
    assert (":" + m.gap) + x == ":" + (m.gap + x);
    assert (m.mid + (":" + m.gap)) + x == m.mid + (":" + (m.gap + x));
    assert ("\"" + (m.mid + (":" + m.gap))) + x == "\"" + (m.mid + (":" + (m.gap + x)));
    assert (Quoted(m.key) + ("\"" + (m.mid + (":" + m.gap)))) + x ==
      Quoted(m.key) + ("\"" + (m.mid + (":" + (m.gap + x))));
  }

  lemma NamedRead(m: Named, y: string, done: seq<Member>)
    requires NamedWell(m) && y != "" && !IsSpace(y[0])
    requires ReadValue(LText(m.laid) + (m.after + y)) == Ok(Means(m.laid), m.after + y)
    ensures var all := Put(done, Member(Meant(m.key), Means(m.laid)));
      ReadMembers(m.before + (KeyOf(m) + (LText(m.laid) + (m.after + y))), done) ==
      if y[0] == ',' then ReadMembers(y[1..], all)
      else if y[0] == '}' then ReadMembers(y, all)
      else Err(ExpectedCommaOrBrace, y)
  {
    var x := LText(m.laid) + (m.after + y);
    GapIsBlank(m.before);
    GapIsBlank(m.after);
    GapIsBlank(m.gap);
    ReadMembersSkips(m.before, KeyOf(m) + x, done);
    KeyRead(m, x);
    ReadValueSkips(m.gap, x);
    SkipBlank(m.after, y);
    assert SkipWhite(KeyOf(m) + x) == KeyOf(m) + x;
  }

  lemma LastMember(m: Named, comma: bool, gap: string, rest: string, done: seq<Member>)
    requires NamedWell(m) && Gap(gap)
    requires var y := AfterItem("", true, comma, gap, '}', rest);
      ReadValue(LText(m.laid) + (m.after + y)) == Ok(Means(m.laid), m.after + y)
    ensures var y := AfterItem("", true, comma, gap, '}', rest);
      ReadMembers(m.before + (KeyOf(m) + (LText(m.laid) + (m.after + y))), done) ==
        Ok(Put(done, Member(Meant(m.key), Means(m.laid))), rest)
  {
    EndingText(comma, gap, '}', rest);
    EndRead(gap, rest, [], Put(done, Member(Meant(m.key), Means(m.laid))));
    if comma {
      var y := "," + (gap + ("}" + rest));
      NamedRead(m, y, done);
      assert y[1..] == gap + ("}" + rest);
    } else {
      LastMemberPlain(m, gap, rest, done);
    }
  }

  lemma LastMemberPlain(m: Named, gap: string, rest: string, done: seq<Member>)
    requires NamedWell(m) && Gap(gap)
    requires var y := gap + ("}" + rest);
      ReadValue(LText(m.laid) + (m.after + y)) == Ok(Means(m.laid), m.after + y)
    ensures var y := gap + ("}" + rest);
      ReadMembers(m.before + (KeyOf(m) + (LText(m.laid) + (m.after + y))), done) ==
        Ok(Put(done, Member(Meant(m.key), Means(m.laid))), rest)
  {
    var m' := m.(after := m.after + gap);
    assert m.after + (gap + ("}" + rest)) == m'.after + ("}" + rest);
    NamedRead(m', "}" + rest, done);
    assert ("}" + rest)[1..] == rest;
  }

  lemma MembersSplit(members: seq<Named>, comma: bool, gap: string, rest: string)
    requires members != []
    ensures MembersText(members) + (Ending(comma, gap, '}') + rest) ==
      members[0].before + (KeyOf(members[0]) + (LText(members[0].laid) + (members[0].after +
        AfterItem(MembersText(members[1..]), |members| == 1, comma, gap, '}', rest))))
  {
    var m, e := members[0], Ending(comma, gap, '}') + rest;
    if |members| == 1 {
      SplitLast(KeyOf(m), LText(m.laid), m.after, e);
      Outer(m.before, KeyOf(m) + (LText(m.laid) + (m.after + ("" + ""))), e);
    } else {
      SplitMore(KeyOf(m), LText(m.laid), m.after, MembersText(members[1..]), e);
      Outer(m.before, KeyOf(m) + (LText(m.laid) + (m.after + ("," + MembersText(members[1..])))), e);
    }
  }

  lemma Outer(a: string, b: string, e: string)
    ensures (a + b) + e == a + (b + e)
  {
  }

  lemma {:induction false} MembersLaid(members: seq<Named>, comma: bool, gap: string, rest: string, done: seq<Member>)
    requires MembersWell(members) && Gap(gap) && (comma ==> members != [])
    ensures ReadMembers(MembersText(members) + (Ending(comma, gap, '}') + rest), done) ==
      Ok(MeanMembers(members, done), rest)
    decreases members, 0
  {
    EndingText(comma, gap, '}', rest);
    if members == [] {
      EndRead(gap, rest, [], done);
      assert "" + (gap + ("}" + rest)) == gap + ("}" + rest);
    } else {
      MembersTail(members);
      MembersSplit(members, comma, gap, rest);
      var m := members[0];
      var y := AfterItem(MembersText(members[1..]), |members| == 1, comma, gap, '}', rest);
      EndIsBoundary(m.after, MembersText(members[1..]), |members| == 1, comma, gap, '}', rest);
      ValueLaid(m.laid, m.after + y);
      if |members| == 1 {
        LastMember(m, comma, gap, rest, done);
        assert MembersText(members[1..]) == "";
      } else {
        NamedRead(m, y, done);
        assert y[1..] == MembersText(members[1..]) + (Ending(comma, gap, '}') + rest);
        MembersLaid(members[1..], comma, gap, rest, Put(done, Member(Meant(m.key), Means(m.laid))));
      }
    }
  }

  // ------------------------------------------------------- and no other text is taken

  lemma {:induction false} SkippedIsGap(s: string) returns (gap: string)
    ensures Gap(gap) && s == gap + SkipWhite(s)
  {
    if s == "" || !IsSpace(s[0]) {
      gap := "";
    } else {
      var g := SkippedIsGap(s[1..]);
      gap := [s[0]] + g;
      SpaceIs(s[0]);
    }
  }

  lemma {:induction false} CharsSound(s: string, out: string) returns (pieces: seq<Piece>)
    requires ReadChars(s, out).Ok?
    ensures GoodPieces(pieces) && s == Quoted(pieces) + ("\"" + ReadChars(s, out).rest)
    ensures ReadChars(s, out).value == out + Meant(pieces)
    decreases |s|
  {
    if s[0] == '"' {
      pieces := [];
      assert s == "" + ("\"" + s[1..]) && out + "" == out;
    } else {
      var p := if s[0] == '\\' then Escaped(s[1]) else Plain(s[0]);
      var t := s[|PieceText(p)|..];
      assert s == PieceText(p) + t;
      PieceRead(p, t, out);
      var tail := CharsSound(t, out + MeantOne(p));
      pieces := [p] + tail;
      PieceInFront(p, tail, ReadChars(s, out).rest, out);
    }
  }

  function MeantOne(p: Piece): string {
    if p.Plain? then [p.c] else Unescape(p.c)
  }

  lemma PieceInFront(p: Piece, tail: seq<Piece>, rest: string, out: string)
    ensures PieceText(p) + (Quoted(tail) + ("\"" + rest)) == Quoted([p] + tail) + ("\"" + rest)
    ensures out + MeantOne(p) + Meant(tail) == out + Meant([p] + tail)
  {
    assert ([p] + tail)[1..] == tail;
    Outer(PieceText(p), Quoted(tail), "\"" + rest);
    assert out + MeantOne(p) + Meant(tail) == out + (MeantOne(p) + Meant(tail));
  }

  /** A string literal and the gap before it. */
  lemma StrSound(s: string) returns (gap: string, pieces: seq<Piece>)
    requires ReadStr(s).Ok?
    ensures Gap(gap) && GoodPieces(pieces) && ReadStr(s).value == Meant(pieces)
    ensures s == gap + ("\"" + (Quoted(pieces) + ("\"" + ReadStr(s).rest)))
  {
    gap := SkippedIsGap(s);
    var t := SkipWhite(s);
    pieces := CharsSound(t[1..], "");
    assert "" + Meant(pieces) == Meant(pieces);
    assert t == "\"" + t[1..];
  }

  lemma {:induction false} NumberSound(s: string)
    ensures var t := NumberChars(s);
      (forall i :: 0 <= i < |t| ==> InNumber(t[i])) && Boundary(s[|t|..]) && s == t + s[|t|..]
  {
    if s != "" && InNumber(s[0]) {
      NumberSound(s[1..]);
      var t := NumberChars(s);
      assert t[1..] == NumberChars(s[1..]) && s[|t|..] == s[1..][|t| - 1..];
    }
  }

  lemma OneLetter(s: string, word: string, rest: string)
    requires s != "" && word != "" && s[0] == word[0] && s[1..] == word[1..] + rest
    ensures s == word + rest
  {
    assert s == [s[0]] + s[1..] && word == [word[0]] + word[1..];
  }

  lemma {:induction false} WordSound(s: string, word: string, error: Error)
    requires ReadWord(s, word, error).Ok?
    ensures s == word + ReadWord(s, word, error).rest
    decreases |word|
  {
    if word != "" {
      WordSound(s[1..], word[1..], error);
      OneLetter(s, word, ReadWord(s, word, error).rest);
    }
  }

  /** A value that starts right at s. */
  lemma {:induction false} ValueSound(s: string) returns (l: Laid)
    requires s != "" && !IsSpace(s[0]) && ReadValue(s).Ok?
    ensures WellLaid(l) && Means(l) == ReadValue(s).value && s == LText(l) + ReadValue(s).rest
    ensures l.LNum? ==> Boundary(ReadValue(s).rest)
    ensures s[0] == '{' <==> l.LObj?
    decreases |s|, 1
  {
    var c, rest := s[0], ReadValue(s).rest;
    assert SkipWhite(s) == s;
    if c == '{' {
      l := ObjectSound(s);
    } else if c == '[' {
      var items, comma, gap := ElementsSound(s[1..], []);
      l := LArr(items, comma, gap);
      ArrayText(s, items, comma, gap, rest);
    } else if c == '"' {
      l := StringSound(s);
    } else {
      l := AtomSound(s);
    }
  }

  lemma ArrayText(s: string, items: seq<Item>, comma: bool, gap: string, rest: string)
    requires Peeks(s, '[') && s[1..] == ItemsText(items) + (Ending(comma, gap, ']') + rest)
    ensures s == LText(LArr(items, comma, gap)) + rest && [] + MeanAll(items) == MeanAll(items)
  {
    assert s == "[" + s[1..];
    BracketText("[", ItemsText(items), Ending(comma, gap, ']'), rest);
  }

  lemma StringSound(s: string) returns (l: Laid)
    requires Peeks(s, '"') && ReadStr(s).Ok?
    ensures l.LStr? && WellLaid(l) && Means(l) == Str(ReadStr(s).value) && s == LText(l) + ReadStr(s).rest
  {
    var gap, pieces := StrSound(s);
    l := LStr(pieces);
    NoGap(s, gap, "\"" + (Quoted(pieces) + ("\"" + ReadStr(s).rest)));
    QuoteText(Quoted(pieces), ReadStr(s).rest);
  }

  lemma QuoteText(q: string, rest: string)
    ensures ("\"" + (q + "\"")) + rest == "\"" + (q + ("\"" + rest))
  {
  }

  lemma NoGap(s: string, gap: string, x: string)
    requires s != "" && !IsSpace(s[0]) && Gap(gap) && s == gap + x
    ensures gap == "" && s == x
  {
    if gap != "" { SpaceIs(gap[0]); }
  }

  lemma AtomSound(s: string) returns (l: Laid)
    requires s != "" && !IsSpace(s[0]) && ReadValue(s).Ok? && s[0] != '{' && s[0] != '[' && s[0] != '"'
    ensures WellLaid(l) && Means(l) == ReadValue(s).value && s == LText(l) + ReadValue(s).rest
    ensures l.LNum? ==> Boundary(ReadValue(s).rest)
    ensures !l.LObj?
  {
    var c := s[0];
    if c == 't' {
      WordSound(s, "true", ExpectedBool);
      l := LWord(Bool(true));
    } else if c == 'f' {
      WordSound(s, "false", ExpectedBool);
      l := LWord(Bool(false));
    } else if c == 'n' {
      WordSound(s, "null", ExpectedNull);
      l := LWord(Null);
    } else {
      NumberSound(s);
      l := LNum(NumberChars(s));
    }
  }

  lemma {:induction false} ObjectSound(s: string) returns (l: Laid)
    requires Peeks(s, '{') && ReadObject(s).Ok?
    ensures l.LObj? && WellLaid(l) && Means(l) == ReadObject(s).value && s == LText(l) + ReadObject(s).rest
    decreases |s|, 0
  {
    assert SkipWhite(s) == s;
    var members, comma, gap := MembersSound(s[1..], []);
    l := LObj(members, comma, gap);
    assert MembersWell(members);
    assert s == "{" + s[1..];
    BracketText("{", MembersText(members), Ending(comma, gap, '}'), ReadObject(s).rest);
  }

  lemma EndSound(s: string, bracket: char) returns (gap: string)
    requires Peeks(SkipWhite(s), bracket)
    ensures Gap(gap) && s == "" + (Ending(false, gap, bracket) + SkipWhite(s)[1..])
  {
    gap := SkippedIsGap(s);
    assert SkipWhite(s) == [bracket] + SkipWhite(s)[1..];
    EndingText(false, gap, bracket, SkipWhite(s)[1..]);
  }

  /** Putting an item in front of the items behind its comma. */
  lemma ItemInFront(item: Item, items: seq<Item>, comma: bool, gap: string, rest: string)
    requires comma ==> items != []
    ensures item.before + (LText(item.laid) +
        (item.after + ("," + (ItemsText(items) + (Ending(comma, gap, ']') + rest))))) ==
      ItemsText([item] + items) + (Ending(comma || items == [], gap, ']') + rest)
  {
    var all := [item] + items;
    assert all[1..] == items;
    ItemsSplit(all, comma || items == [], gap, rest);
    if items == [] {
      EndingText(true, gap, ']', rest);
      EndingText(false, gap, ']', rest);
      assert "" + (gap + ("]" + rest)) == gap + ("]" + rest);
    }
  }

  lemma MeanInFront(item: Item, items: seq<Item>, done: seq<Value>)
    ensures done + [Means(item.laid)] + MeanAll(items) == done + MeanAll([item] + items)
  {
    assert ([item] + items)[1..] == items;
  }

  lemma ItemsWellInFront(item: Item, items: seq<Item>)
    requires Gap(item.before) && WellLaid(item.laid) && Gap(item.after) && ItemsWell(items)
    ensures ItemsWell([item] + items)
  {
  }

  /** The text of an item read at s. */
  lemma ItemSound(s: string, l: Laid, rest: string) returns (item: Item)
    requires WellLaid(l) && SkipWhite(s) == LText(l) + rest
    ensures item.laid == l && Gap(item.before) && Gap(item.after)
    ensures s == item.before + (LText(l) + (item.after + SkipWhite(rest)))
  {
    var before := SkippedIsGap(s);
    var after := SkippedIsGap(rest);
    item := Item(before, l, after);
  }

  lemma {:induction false} ElementsSound(s: string, vals: seq<Value>)
    returns (items: seq<Item>, comma: bool, gap: string)
    requires ReadElements(s, vals).Ok?
    ensures ItemsWell(items) && Gap(gap) && (comma ==> items != [])
    ensures s == ItemsText(items) + (Ending(comma, gap, ']') + ReadElements(s, vals).rest)
    ensures ReadElements(s, vals).value == vals + MeanAll(items)
    decreases |s|, 2
  {
    var t, end := SkipWhite(s), ReadElements(s, vals).rest;
    if Peeks(t, ']') {
      items, comma := [], false;
      gap := EndSound(s, ']');
      assert vals + [] == vals;
    } else {
      SkipTwice(s);
      var r := ReadValue(t);
      var l := ValueSound(t);
      var item := ItemSound(s, l, r.rest);
      var u := SkipWhite(r.rest);
      if Peeks(u, ',') {
        var more, c, g := ElementsSound(u[1..], vals + [r.value]);
        items, comma, gap := [item] + more, c || more == [], g;
        assert u == "," + u[1..];
        ItemInFront(item, more, c, g, end);
        MeanInFront(item, more, vals);
        ItemsWellInFront(item, more);
      } else {
        items, comma, gap := [item], false, "";
        OneItem(item, u, end);
        assert vals + [r.value] == vals + MeanAll([item]);
      }
    }
  }

  lemma OneItem(item: Item, u: string, end: string)
    requires u == "]" + end
    ensures item.before + (LText(item.laid) + (item.after + u)) == ItemsText([item]) + (Ending(false, "", ']') + end)
  {
    ItemsSplit([item], false, "", end);
    EndingText(false, "", ']', end);
    assert "" + ("]" + end) == "]" + end;
  }

  lemma KeySound(s: string) returns (m: Named)
    requires ReadKey(s).Ok?
    ensures Gap(m.before) && GoodPieces(m.key) && Gap(m.mid) && m.gap == "" && Meant(m.key) == ReadKey(s).value
    ensures s == m.before + (KeyOf(m) + ReadKey(s).rest)
  {
    var before, key := StrSound(s);
    var after := ReadStr(s).rest;
    var mid := SkippedIsGap(after);
    m := Named(before, key, mid, "", LWord(Null), "");
    assert SkipWhite(after) == ":" + ReadKey(s).rest;
    KeyTextSplit(m, ReadKey(s).rest);
    assert "" + ReadKey(s).rest == ReadKey(s).rest;
  }

  /** The text of a member read at s. */
  lemma NamedSound(s: string, l: Laid, rest: string) returns (m: Named)
    requires ReadKey(s).Ok? && WellLaid(l) && SkipWhite(ReadKey(s).rest) == LText(l) + rest
    ensures NamedWell(m) && m.laid == l && Meant(m.key) == ReadKey(s).value
    ensures s == m.before + (KeyOf(m) + (LText(l) + (m.after + SkipWhite(rest))))
  {
    var k := KeySound(s);
    var gap := SkippedIsGap(ReadKey(s).rest);
    var after := SkippedIsGap(rest);
    m := k.(gap := gap, laid := l, after := after);
    KeyTextSplit(k, ReadKey(s).rest);
    KeyTextSplit(m, LText(l) + rest);
    assert "" + ReadKey(s).rest == ReadKey(s).rest;
  }

  lemma MemberInFront(m: Named, members: seq<Named>, comma: bool, gap: string, rest: string)
    requires comma ==> members != []
    ensures m.before + (KeyOf(m) + (LText(m.laid) +
        (m.after + ("," + (MembersText(members) + (Ending(comma, gap, '}') + rest)))))) ==
      MembersText([m] + members) + (Ending(comma || members == [], gap, '}') + rest)
  {
    var all := [m] + members;
    assert all[1..] == members;
    MembersSplit(all, comma || members == [], gap, rest);
    if members == [] {
      EndingText(true, gap, '}', rest);
      EndingText(false, gap, '}', rest);
      assert "" + (gap + ("}" + rest)) == gap + ("}" + rest);
    }
  }

  lemma MembersWellInFront(m: Named, members: seq<Named>)
    requires NamedWell(m) && MembersWell(members)
    ensures MembersWell([m] + members)
  {
  }

  lemma OneMember(m: Named, u: string, end: string)
    requires u == "}" + end
    ensures m.before + (KeyOf(m) + (LText(m.laid) + (m.after + u))) ==
      MembersText([m]) + (Ending(false, "", '}') + end)
  {
    MembersSplit([m], false, "", end);
    EndingText(false, "", '}', end);
    assert "" + ("}" + end) == "}" + end;
  }

  /** One round of the member loop that did not fail. */
  lemma MembersRound(s: string, done: seq<Member>)
    requires ReadMembers(s, done).Ok? && !Peeks(SkipWhite(s), '}')
    ensures ReadKey(SkipWhite(s)).Ok? && ReadValue(ReadKey(SkipWhite(s)).rest).Ok?
    ensures var k, r := ReadKey(SkipWhite(s)), ReadValue(ReadKey(SkipWhite(s)).rest);
      var u, all := SkipWhite(r.rest), Put(done, Member(k.value, r.value));
      && (Peeks(u, ',') || Peeks(u, '}'))
      && ReadMembers(s, done) == if Peeks(u, ',') then ReadMembers(u[1..], all) else Ok(all, u[1..])
  {
  }

  lemma MemberCase(s: string, m: Named, members: seq<Named>, comma: bool, gap: string, end: string, done: seq<Member>)
    requires NamedWell(m) && MembersWell(members) && Gap(gap) && (comma ==> members != [])
    requires s == m.before + (KeyOf(m) + (LText(m.laid) +
      (m.after + ("," + (MembersText(members) + (Ending(comma, gap, '}') + end))))))
    ensures var all := [m] + members;
      && MembersWell(all) && s == MembersText(all) + (Ending(comma || members == [], gap, '}') + end)
      && MeanMembers(all, done) == MeanMembers(members, Put(done, Member(Meant(m.key), Means(m.laid))))
  {
    MemberInFront(m, members, comma, gap, end);
    MembersWellInFront(m, members);
    assert ([m] + members)[1..] == members;
  }

  lemma LastCase(s: string, m: Named, u: string, end: string, done: seq<Member>)
    requires NamedWell(m) && Peeks(u, '}') && u[1..] == end
    requires s == m.before + (KeyOf(m) + (LText(m.laid) + (m.after + u)))
    ensures MembersWell([m]) && s == MembersText([m]) + (Ending(false, "", '}') + end)
    ensures MeanMembers([m], done) == Put(done, Member(Meant(m.key), Means(m.laid)))
  {
    assert u == "}" + end;
    OneMember(m, u, end);
    assert [m][1..] == [];
  }

  lemma {:induction false} MembersSound(s: string, done: seq<Member>)
    returns (members: seq<Named>, comma: bool, gap: string)
    requires ReadMembers(s, done).Ok?
    ensures MembersWell(members) && Gap(gap) && (comma ==> members != [])
    ensures s == MembersText(members) + (Ending(comma, gap, '}') + ReadMembers(s, done).rest)
    ensures ReadMembers(s, done).value == MeanMembers(members, done)
    decreases |s|, 2
  {
    var t, end := SkipWhite(s), ReadMembers(s, done).rest;
    if Peeks(t, '}') {
      members, comma := [], false;
      gap := EndSound(s, '}');
    } else {
      MembersRound(s, done);
      var x := ReadKey(t).rest;
      var m := MemberSound(s, x);
      var all := Put(done, Member(Meant(m.key), Means(m.laid)));
      var u := SkipWhite(ReadValue(x).rest);
      if Peeks(u, ',') {
        var more, c, g := MembersSound(u[1..], all);
        CommaFirstIs(u);
        MemberCase(s, m, more, c, g, end, done);
        members, comma, gap := [m] + more, c || more == [], g;
      } else {
        LastCase(s, m, u, end, done);
        members, comma, gap := [m], false, "";
      }
    }
  }

  lemma CommaFirstIs(u: string)
    requires Peeks(u, ',')
    ensures u == "," + u[1..]
  {
  }

  /** The member at s, whose value is read at x. */
  lemma {:induction false} MemberSound(s: string, x: string) returns (m: Named)
    requires ReadKey(SkipWhite(s)).Ok? && x == ReadKey(SkipWhite(s)).rest && ReadValue(x).Ok?
    ensures NamedWell(m) && Meant(m.key) == ReadKey(SkipWhite(s)).value && Means(m.laid) == ReadValue(x).value
    ensures s == m.before + (KeyOf(m) + (LText(m.laid) + (m.after + SkipWhite(ReadValue(x).rest))))
    decreases |s|, 1
  {
    SkipTwice(x);
    ValueSkips(x);
    var l := ValueSound(SkipWhite(x));
    m := LedSound(s, l, ReadValue(x).rest);
  }

  lemma ValueSkips(x: string)
    requires ReadValue(x).Ok?
    ensures ReadValue(SkipWhite(x)) == ReadValue(x) && SkipWhite(x) != "" && !IsSpace(SkipWhite(x)[0])
  {
    SkipTwice(x);
  }

  /** The same with the gap before the name. */
  lemma LedSound(s: string, l: Laid, rest: string) returns (m: Named)
    requires var k := ReadKey(SkipWhite(s)); k.Ok? && WellLaid(l) && SkipWhite(k.rest) == LText(l) + rest
    ensures NamedWell(m) && m.laid == l && Meant(m.key) == ReadKey(SkipWhite(s)).value
    ensures s == m.before + (KeyOf(m) + (LText(l) + (m.after + SkipWhite(rest))))
  {
    var lead := SkippedIsGap(s);
    var n := NamedSound(SkipWhite(s), l, rest);
    m := n.(before := lead + n.before);
    GapJoin(lead, n.before);
    assert KeyOf(m) == KeyOf(n);
    Outer(lead, n.before, KeyOf(n) + (LText(l) + (n.after + SkipWhite(rest))));
  }

  lemma GapJoin(a: string, b: string)
    requires Gap(a) && Gap(b)
    ensures Gap(a + b)
  {
  }

  // ------------------------------------------------------------------- main results

  /** s is a gap, then an object laid out as l, and then rest. */
  ghost predicate IsLaid(s: string, gap: string, l: Laid, rest: string) {
    Gap(gap) && l.LObj? && WellLaid(l) && s == gap + (LText(l) + rest)
  }

  lemma Accepted(s: string, gap: string, l: Laid, rest: string)
    requires IsLaid(s, gap, l, rest)
    ensures ReadObject(s) == Ok(Means(l), rest)
  {
    GapIsBlank(gap);
    assert MembersWell(l.members);
    MembersLaid(l.members, l.comma, l.gap, rest, []);
    ObjectIs(l.members, l.comma, l.gap, rest);
    ObjectSkips(gap, LText(l) + rest);
  }

  lemma ObjectSkips(gap: string, x: string)
    requires Blank(gap)
    ensures ReadObject(gap + x) == ReadObject(x)
  {
    SkipBlank(gap, x);
  }

  /** The parser takes a text if and only if an object is laid out at its front, and then it gives
      what that object means and leaves what follows it. */
  lemma ParsesExactly(s: string)
    ensures ReadObject(s).Ok? <==> exists gap, l, rest :: IsLaid(s, gap, l, rest)
    ensures forall gap, l, rest :: IsLaid(s, gap, l, rest) ==> ReadObject(s) == Ok(Means(l), rest)
  {
    forall gap, l, rest | IsLaid(s, gap, l, rest) ensures ReadObject(s) == Ok(Means(l), rest) {
      Accepted(s, gap, l, rest);
    }
    if ReadObject(s).Ok? {
      var gap := SkippedIsGap(s);
      SkipTwice(s);
      assert ReadObject(SkipWhite(s)) == ReadObject(s);
      var l := ObjectSound(SkipWhite(s));
      assert IsLaid(s, gap, l, ReadObject(s).rest);
    }
  }

  /** The same tokens without anything between them. */
  function Bare(l: Laid): Laid
    decreases l, 1
  {
    match l
    case LArr(items, comma, _) => LArr(BareItems(items), comma, "")
    case LObj(members, comma, _) => LObj(BareMembers(members), comma, "")
    case _ => l
  }

  function BareItems(items: seq<Item>): (r: seq<Item>)
    ensures |r| == |items|
    decreases items, 0
  {
    if items == [] then [] else [Item("", Bare(items[0].laid), "")] + BareItems(items[1..])
  }

  function BareMembers(members: seq<Named>): (r: seq<Named>)
    ensures |r| == |members|
    decreases members, 0
  {
    if members == [] then []
    else [Named("", members[0].key, "", "", Bare(members[0].laid), "")] + BareMembers(members[1..])
  }

  lemma {:induction false} BareMeans(l: Laid)
    ensures Means(Bare(l)) == Means(l)
    decreases l, 1
  {
    match l
    case LArr(items, _, _) => BareItemsMean(items);
    case LObj(members, _, _) => BareMembersMean(members, []);
    case _ =>
  }

  lemma {:induction false} BareItemsMean(items: seq<Item>)
    ensures MeanAll(BareItems(items)) == MeanAll(items)
    decreases items, 0
  {
    if items != [] {
      BareMeans(items[0].laid);
      BareItemsMean(items[1..]);
      assert BareItems(items)[1..] == BareItems(items[1..]);
    }
  }

  lemma {:induction false} BareMembersMean(members: seq<Named>, done: seq<Member>)
    ensures MeanMembers(BareMembers(members), done) == MeanMembers(members, done)
    decreases members, 0
  {
    if members != [] {
      BareMeans(members[0].laid);
      BareMembersMean(members[1..], Put(done, Member(Meant(members[0].key), Means(members[0].laid))));
      assert BareMembers(members)[1..] == BareMembers(members[1..]);
    }
  }

  /** Whatever of the six blanks stands before and between the tokens of a printed object, after
      a colon or around a comma or bracket, it parses as it was printed. */
  lemma GapsDoNotMatter(f: Format, members: seq<Member>, rest: string, gap: string, l: Laid, s: string)
    requires Printable(Obj(members)) && IsLaid(Print(f, Obj(members), 0) + rest, gap, l, rest)
    ensures forall gap', l' :: Bare(l') == Bare(l) && IsLaid(s, gap', l', rest) ==>
      ReadObject(s) == Ok(Obj(members), rest)
  {
    ObjectRoundTrip(f, members, rest);
    Accepted(Print(f, Obj(members), 0) + rest, gap, l, rest);
    forall gap', l' | Bare(l') == Bare(l) && IsLaid(s, gap', l', rest)
      ensures ReadObject(s) == Ok(Obj(members), rest)
    {
      BareMeans(l);
      BareMeans(l');
      Accepted(s, gap', l', rest);
    }
  }

  /** Every printed object is such a layout. */
  lemma PrintIsLaid(f: Format, members: seq<Member>, rest: string)
    requires Printable(Obj(members))
    ensures exists gap, l :: IsLaid(Print(f, Obj(members), 0) + rest, gap, l, rest) && Means(l) == Obj(members)
  {
    var s := Print(f, Obj(members), 0) + rest;
    ObjectRoundTrip(f, members, rest);
    ParsesExactly(s);
    var gap, l, r :| IsLaid(s, gap, l, r);
    assert IsLaid(s, gap, l, rest) && Means(l) == Obj(members);
  }
}
