/** Parsing printed text gives the value back under every format setting. */
module JsonRoundTrip {
  import opened JsonFormat
  import JsonReader
  import JsonWriter

  ghost predicate Blank(s: string) {
    forall i :: 0 <= i < |s| ==> IsSpace(s[i])
  }

  lemma {:induction false} SkipBlank(ws: string, x: string)
    requires Blank(ws)
    ensures SkipWhite(ws + x) == SkipWhite(x)
  {
    if ws == "" {
      assert ws + x == x;
    } else {
      SkipBlank(ws[1..], x);
      assert (ws + x)[1..] == ws[1..] + x;
    }
  }

  lemma BlankParts(f: Format, last: bool, lineBreak: bool, n: nat)
    ensures Blank(Spaces(n)) && Blank(Repeat('\n', n))
    ensures last ==> Blank(Separator(f, last, lineBreak))
    ensures !last ==> Peeks(Separator(f, last, lineBreak), ',') && Blank(Separator(f, last, lineBreak)[1..])
  {
  }

  lemma ReadValueSkips(ws: string, x: string)
    requires Blank(ws)
    ensures ReadValue(ws + x) == ReadValue(x)
  {
    SkipBlank(ws, x);
  }

  lemma ReadElementsSkips(ws: string, x: string, vals: seq<Value>)
    requires Blank(ws)
    ensures ReadElements(ws + x, vals) == ReadElements(x, vals)
  {
    SkipBlank(ws, x);
  }

  lemma ReadMembersSkips(ws: string, x: string, members: seq<Member>)
    requires Blank(ws)
    ensures ReadMembers(ws + x, members) == ReadMembers(x, members)
  {
    SkipBlank(ws, x);
  }

  // ------------------------------------------------------------------- strings

  lemma ReadEscaped(c: char, x: string, out: string)
    ensures ReadChars(EscapeChar(c) + x, out) == ReadChars(x, out + [c])
  {
    var e := EscapeChar(c);
    if |e| == 1 {
      assert (e + x)[1..] == x;
    } else {
      assert (e + x)[2..] == x;
    }
  }

  lemma {:induction false} CharsRoundTrip(s: string, out: string, rest: string)
    ensures ReadChars(Escape(s) + ("\"" + rest), out) == Ok(out + s, rest)
    decreases |s|
  {
    if s == "" {
      assert Escape(s) + ("\"" + rest) == "\"" + rest && out + s == out;
    } else {
      var x := Escape(s[1..]) + ("\"" + rest);
      assert Escape(s) + ("\"" + rest) == EscapeChar(s[0]) + x;
      ReadEscaped(s[0], x, out);
      CharsRoundTrip(s[1..], out + [s[0]], rest);
      assert out + [s[0]] + s[1..] == out + s;
    }
  }

  lemma StrRoundTrip(s: string, rest: string)
    ensures ReadStr(EncodeStr(s) + rest) == Ok(s, rest)
    ensures SkipWhite(EncodeStr(s) + rest) == EncodeStr(s) + rest
  {
    var t := EncodeStr(s) + rest;
    assert t[1..] == Escape(s) + ("\"" + rest);
    CharsRoundTrip(s, "", rest);
    assert "" + s == s;
  }

  // ------------------------------------------------------------------- numbers

  lemma {:induction false} DigitsRoundTrip(n: nat)
    ensures AllDigits(Digits(n)) && Digits(n) != "" && NatOf(Digits(n)) == n
  {
    if n < 10 {
      assert Digits(n)[..0] == "";
      assert NatOf("") == 0;
    } else {
      DigitsRoundTrip(n / 10);
      var d := Digits(n);
      assert d[..|d| - 1] == Digits(n / 10);
    }
  }

  /** Text after a number that cannot be taken for part of it. */
  predicate Boundary(rest: string) {
    rest == "" || !InNumber(rest[0])
  }

  lemma {:induction false} NumberCharsStop(t: string, rest: string)
    requires AllDigits(t) && Boundary(rest)
    ensures NumberChars(t + rest) == t
  {
    if t == "" {
      assert t + rest == rest;
    } else {
      NumberCharsStop(t[1..], rest);
      assert (t + rest)[1..] == t[1..] + rest;
    }
  }

  // ---------------------------------------------------------------- constants

  lemma {:induction false} WordRoundTrip(word: string, rest: string, error: Error)
    ensures ReadWord(word + rest, word, error) == Ok((), rest)
    decreases |word|
  {
    if word == "" {
      assert word + rest == rest;
    } else {
      WordRoundTrip(word[1..], rest, error);
      assert (word + rest)[1..] == word[1..] + rest;
    }
  }

  lemma NumberRoundTrip(n: nat, rest: string)
    requires Boundary(rest)
    ensures ReadValue(Digits(n) + rest) == Ok(Num(Whole(n)), rest)
  {
    DigitsRoundTrip(n);
    NumberText(Digits(n), rest);
  }

  lemma NumberText(t: string, rest: string)
    requires AllDigits(t) && t != "" && Boundary(rest)
    ensures ReadValue(t + rest) == Ok(Num(Whole(NatOf(t))), rest)
  {
    NumberCharsStop(t, rest);
    assert IsDigit((t + rest)[0]) && SkipWhite(t + rest) == t + rest;
    assert (t + rest)[|t|..] == rest;
  }

  lemma AtomRoundTrip(f: Format, v: Value, depth: nat, rest: string)
    requires Printable(v) && Boundary(rest) && !v.Arr? && !v.Obj?
    ensures ReadValue(Print(f, v, depth) + rest) == Ok(v, rest)
  {
    match v
    case Null => WordRoundTrip("null", rest, ExpectedNull);
    case Bool(b) =>
      if b { WordRoundTrip("true", rest, ExpectedBool); } else { WordRoundTrip("false", rest, ExpectedBool); }
    case Num(num) =>
      NumberRoundTrip(num.n, rest);
    case Str(s) => StrRoundTrip(s, rest);
  }

  // -------------------------------------------------------------------- arrays

  lemma {:induction false} SkipTwice(s: string)
    ensures SkipWhite(SkipWhite(s)) == SkipWhite(s)
  {
    if s != "" && IsSpace(s[0]) {
      SkipTwice(s[1..]);
    }
  }

  lemma ElementRead(s: string, vals: seq<Value>, v: Value, x: string)
    requires ReadValue(s) == Ok(v, x) && !Peeks(SkipWhite(s), ']')
    ensures var u := SkipWhite(x);
            ReadElements(s, vals) ==
              if Peeks(u, ',') then ReadElements(u[1..], vals + [v])
              else if Peeks(u, ']') then ReadElements(u, vals + [v])
              else Err(ExpectedCommaOrBracket, u)
  {
    SkipTwice(s);
    assert ReadValue(SkipWhite(s)) == ReadValue(s);
  }

  lemma CommaFirst(sep: string, x: string)
    requires Peeks(sep, ',')
    ensures SkipWhite(sep + x) == sep + x && Peeks(sep + x, ',')
    ensures (sep + x)[1..] == sep[1..] + x
  {
  }

  /** An element followed by a separator that starts with a comma. */
  lemma ElementThenMore(s: string, vals: seq<Value>, v: Value, sep: string, x: string)
    requires ReadValue(s) == Ok(v, sep + x) && !Peeks(SkipWhite(s), ']')
    requires Peeks(sep, ',') && Blank(sep[1..])
    ensures ReadElements(s, vals) == ReadElements(x, vals + [v])
  {
    ElementRead(s, vals, v, sep + x);
    assert SkipWhite(sep + x) == sep + x;
    assert (sep + x)[1..] == sep[1..] + x;
    ReadElementsSkips(sep[1..], x, vals + [v]);
  }

  /** The last element, followed by blanks and the bracket. */
  lemma ElementThenEnd(s: string, vals: seq<Value>, v: Value, blank: string, rest: string)
    requires ReadValue(s) == Ok(v, blank + ("]" + rest)) && !Peeks(SkipWhite(s), ']')
    requires Blank(blank)
    ensures ReadElements(s, vals) == Ok(vals + [v], rest)
  {
    ElementRead(s, vals, v, blank + ("]" + rest));
    SkipBlank(blank, "]" + rest);
    assert ("]" + rest)[1..] == rest;
  }

  // ------------------------------------------------------------------- objects

  ghost predicate FreshKey(key: string, members: seq<Member>) {
    forall i :: 0 <= i < |members| ==> members[i].key != key
  }

  lemma {:induction false} PutFresh(members: seq<Member>, m: Member)
    requires FreshKey(m.key, members)
    ensures Put(members, m) == members + [m]
  {
    if members != [] {
      assert FreshKey(m.key, members[1..]);
      PutFresh(members[1..], m);
      assert members == [members[0]] + members[1..];
    }
  }

  /** A key not in the object yet, with its colon and value. */
  lemma MemberRead(s: string, members: seq<Member>, key: string, u: string, c: string, v: Value, x: string)
    requires ReadStr(s) == Ok(key, u) && Peeks(SkipWhite(s), '"')
    requires SkipWhite(u) == ":" + c && ReadValue(c) == Ok(v, x)
    requires FreshKey(key, members)
    ensures var w := SkipWhite(x);
            var all := members + [Member(key, v)];
            ReadMembers(s, members) ==
              if Peeks(w, ',') then ReadMembers(w[1..], all)
              else if Peeks(w, '}') then ReadMembers(w, all)
              else Err(ExpectedCommaOrBrace, w)
  {
    SkipTwice(s);
    assert ReadStr(SkipWhite(s)) == ReadStr(s);
    assert (":" + c)[1..] == c;
    PutFresh(members, Member(key, v));
  }

  lemma MemberThenMore(s: string, members: seq<Member>, key: string, u: string, c: string, v: Value,
                       sep: string, x: string)
    requires ReadStr(s) == Ok(key, u) && Peeks(SkipWhite(s), '"')
    requires SkipWhite(u) == ":" + c && ReadValue(c) == Ok(v, sep + x)
    requires FreshKey(key, members)
    requires Peeks(sep, ',') && Blank(sep[1..])
    ensures ReadMembers(s, members) == ReadMembers(x, members + [Member(key, v)])
  {
    MemberRead(s, members, key, u, c, v, sep + x);
    CommaFirst(sep, x);
    ReadMembersSkips(sep[1..], x, members + [Member(key, v)]);
  }

  lemma MemberThenEnd(s: string, members: seq<Member>, key: string, u: string, c: string, v: Value,
                      blank: string, rest: string)
    requires ReadStr(s) == Ok(key, u) && Peeks(SkipWhite(s), '"')
    requires SkipWhite(u) == ":" + c && ReadValue(c) == Ok(v, blank + ("}" + rest))
    requires FreshKey(key, members)
    requires Blank(blank)
    ensures ReadMembers(s, members) == Ok(members + [Member(key, v)], rest)
  {
    MemberRead(s, members, key, u, c, v, blank + ("}" + rest));
    SkipBlank(blank, "}" + rest);
    assert ("}" + rest)[1..] == rest;
  }

  // ------------------------------------------------------------ the round trip

  ghost predicate AllPrintable(vals: seq<Value>) {
    forall i :: 0 <= i < |vals| ==> Printable(vals[i])
  }

  lemma PrintableTail(vals: seq<Value>)
    requires AllPrintable(vals) && vals != []
    ensures Printable(vals[0]) && AllPrintable(vals[1..])
  {
  }

  /** Members with printable values and distinct keys, none of them among those already read. */
  ghost predicate Addable(members: seq<Member>, done: seq<Member>) {
    && (forall i :: 0 <= i < |members| ==> Printable(members[i].val))
    && (forall i :: 0 <= i < |members| ==> FreshKey(members[i].key, done))
    && (forall i, j :: 0 <= i < j < |members| ==> members[i].key != members[j].key)
  }

  lemma AddableTail(members: seq<Member>, done: seq<Member>)
    requires Addable(members, done) && members != []
    ensures Printable(members[0].val) && FreshKey(members[0].key, done)
    ensures Addable(members[1..], done + [members[0]])
  {
    var m := members[1..];
    var d := done + [members[0]];
    forall i | 0 <= i < |m| ensures FreshKey(m[i].key, d) {
      assert FreshKey(members[i + 1].key, done);
      assert members[0].key != members[i + 1].key;
    }
  }

  lemma OpeningParts(f: Format, inLine: bool, depth: nat, bracket: char, x: string)
    requires !IsSpace(bracket)
    ensures SkipWhite(Opening(f, inLine, depth, bracket) + x) ==
      [bracket] + ((if f.elemPerLine then "\n" else "") + x)
  {
    var lead := if inLine then "\n" + Spaces(f.indent * depth) else "";
    var line := if f.elemPerLine then "\n" else "";
    BlankParts(f, true, true, f.indent * depth);
    LineIsBlank(Spaces(f.indent * depth));
    FourParts(lead, [bracket], line, x);
    SkipBlank(lead, [bracket] + (line + x));
  }

  lemma LineIsBlank(spaces: string)
    requires Blank(spaces)
    ensures Blank("\n" + spaces) && Blank("")
  {
  }

  lemma FourParts(a: string, b: string, c: string, x: string)
    ensures (a + b + c) + x == a + (b + (c + x))
  {
  }

  lemma ContainerStarts(f: Format, inLine: bool, depth: nat, bracket: char, more: string, last: string, x: string)
    requires !IsSpace(bracket)
    ensures Peeks(SkipWhite(Opening(f, inLine, depth, bracket) + more + Spaces(f.indent * depth) + last + x), bracket)
  {
    var t := more + Spaces(f.indent * depth) + last + x;
    assert Opening(f, inLine, depth, bracket) + more + Spaces(f.indent * depth) + last + x ==
      Opening(f, inLine, depth, bracket) + t;
    OpeningParts(f, inLine, depth, bracket, t);
  }

  lemma PrintStarts(f: Format, v: Value, depth: nat, x: string)
    requires Printable(v)
    ensures !Peeks(SkipWhite(Print(f, v, depth) + x), ']')
  {
    match v
    case Null =>
    case Bool(b) =>
    case Num(num) => DigitsRoundTrip(num.n);
    case Str(s) => StrRoundTrip(s, x);
    case Arr(vals) =>
      ContainerStarts(f, f.bracketInLine, depth, '[', PrintElements(f, vals, 0, depth), "]", x);
    case Obj(members) =>
      ContainerStarts(f, f.braceInLine, depth, '{', PrintMembers(f, members, depth), "}", x);
  }

  function Closing(f: Format, depth: nat, bracket: char, rest: string): string {
    Spaces(f.indent * depth) + ([bracket] + rest)
  }

  lemma ContainerText(f: Format, inLine: bool, depth: nat, bracket: char, more: string, last: char, rest: string)
    requires !IsSpace(bracket)
    ensures SkipWhite(Opening(f, inLine, depth, bracket) + more + Spaces(f.indent * depth) + [last] + rest) ==
      [bracket] + ((if f.elemPerLine then "\n" else "") + (more + Closing(f, depth, last, rest)))
  {
    var t := more + Closing(f, depth, last, rest);
    assert Opening(f, inLine, depth, bracket) + more + Spaces(f.indent * depth) + [last] + rest ==
      Opening(f, inLine, depth, bracket) + t;
    OpeningParts(f, inLine, depth, bracket, t);
  }

  lemma ArrayStarts(s: string, line: string, more: string, vals: seq<Value>, rest: string)
    requires SkipWhite(s) == "[" + (line + more) && Blank(line)
    requires ReadElements(more, []) == Ok(vals, rest)
    ensures ReadValue(s) == Ok(Arr(vals), rest)
  {
    assert SkipWhite(s)[1..] == line + more;
    ReadElementsSkips(line, more, []);
  }

  lemma ObjectStarts(s: string, line: string, more: string, members: seq<Member>, rest: string)
    requires SkipWhite(s) == "{" + (line + more) && Blank(line)
    requires ReadMembers(more, []) == Ok(members, rest)
    ensures ReadObject(s) == Ok(Obj(members), rest)
  {
    assert SkipWhite(s)[1..] == line + more;
    ReadMembersSkips(line, more, []);
  }

  lemma ObjectIsValue(s: string)
    requires Peeks(SkipWhite(s), '{')
    ensures ReadValue(s) == ReadObject(s)
  {
    SkipTwice(s);
  }

  /** What follows an element's text, up to the closing bracket. */
  lemma TailIsBoundary(f: Format, last: bool, lineBreak: bool, depth: nat, bracket: char, x: string, rest: string)
    requires bracket == ']' || bracket == '}'
    requires last ==> x == Closing(f, depth, bracket, rest)
    ensures Boundary(Separator(f, last, lineBreak) + x)
  {
    if last && !lineBreak {
      assert Separator(f, last, lineBreak) + x == x;
      if f.indent * depth == 0 {
        assert x == [bracket] + rest;
      } else {
        assert Blank(Spaces(f.indent * depth)) by { BlankParts(f, true, true, f.indent * depth); }
        assert x[0] == Spaces(f.indent * depth)[0];
      }
    }
  }

  lemma {:induction false} ValueRoundTrip(f: Format, v: Value, depth: nat, rest: string)
    requires Printable(v) && Boundary(rest)
    ensures ReadValue(Print(f, v, depth) + rest) == Ok(v, rest)
    decreases v, 1
  {
    match v
    case Arr(vals) =>
      assert AllPrintable(vals);
      var more := PrintElements(f, vals, 0, depth);
      ElementsRoundTrip(f, vals, 0, depth, [], rest);
      assert [] + vals == vals;
      ContainerText(f, f.bracketInLine, depth, '[', more, ']', rest);
      ArrayStarts(Print(f, v, depth) + rest, if f.elemPerLine then "\n" else "",
        more + Closing(f, depth, ']', rest), vals, rest);
    case Obj(members) =>
      assert Addable(members, []);
      var more := PrintMembers(f, members, depth);
      MembersRoundTrip(f, members, depth, [], rest);
      assert [] + members == members;
      ContainerText(f, f.braceInLine, depth, '{', more, '}', rest);
      ObjectStarts(Print(f, v, depth) + rest, if f.elemPerLine then "\n" else "",
        more + Closing(f, depth, '}', rest), members, rest);
      ObjectIsValue(Print(f, v, depth) + rest);
    case _ => AtomRoundTrip(f, v, depth, rest);
  }

  lemma Regroup(a: string, b: string, c: string, d: string, e: string)
    ensures a + b + c + d + e == a + (b + (c + (d + e)))
  {
  }

  lemma ElementText(f: Format, vals: seq<Value>, i: nat, depth: nat, closing: string)
    requires vals != []
    ensures PrintElements(f, vals, i, depth) + closing ==
      Lead(f, i, depth) + (Print(f, vals[0], depth + 1) +
        (After(f, |vals|, i) + (PrintElements(f, vals[1..], i + 1, depth) + closing)))
  {
    Regroup(Lead(f, i, depth), Print(f, vals[0], depth + 1), After(f, |vals|, i),
      PrintElements(f, vals[1..], i + 1, depth), closing);
  }

  lemma ElementParts(f: Format, n: nat, i: nat, depth: nat, x: string, rest: string)
    requires n == 1 ==> x == Closing(f, depth, ']', rest)
    ensures Blank(Lead(f, i, depth)) && Boundary(After(f, n, i) + x)
    ensures n != 1 ==> Peeks(After(f, n, i), ',') && Blank(After(f, n, i)[1..])
    ensures n == 1 ==> Blank(After(f, n, i) + Spaces(f.indent * depth))
    ensures n == 1 ==> After(f, n, i) + x == (After(f, n, i) + Spaces(f.indent * depth)) + ("]" + rest)
  {
    var lineBreak := f.elemPerLine && (n == 1 || StartsLine(f, i + 1));
    BlankParts(f, n == 1, lineBreak, f.indent * (depth + 1));
    BlankParts(f, n == 1, lineBreak, f.indent * depth);
    TailIsBoundary(f, n == 1, lineBreak, depth, ']', x, rest);
  }

  lemma EmptyRest(f: Format, depth: nat, vals: seq<Value>, members: seq<Member>, rest: string)
    ensures ReadElements(Closing(f, depth, ']', rest), vals) == Ok(vals, rest)
    ensures ReadMembers(Closing(f, depth, '}', rest), members) == Ok(members, rest)
  {
    BlankParts(f, true, true, f.indent * depth);
    ReadElementsSkips(Spaces(f.indent * depth), "]" + rest, vals);
    ReadMembersSkips(Spaces(f.indent * depth), "}" + rest, members);
    assert ("]" + rest)[1..] == rest && ("}" + rest)[1..] == rest;
  }

  /** One element read, given that its value reads back. */
  lemma ElementStep(f: Format, vals: seq<Value>, i: nat, depth: nat, done: seq<Value>, rest: string, x: string)
    requires vals != [] && Printable(vals[0])
    requires x == PrintElements(f, vals[1..], i + 1, depth) + Closing(f, depth, ']', rest)
    requires |vals| == 1 ==> x == Closing(f, depth, ']', rest)
    requires var after := After(f, |vals|, i) + x;
             ReadValue(Print(f, vals[0], depth + 1) + after) == Ok(vals[0], after)
    ensures ReadElements(PrintElements(f, vals, i, depth) + Closing(f, depth, ']', rest), done) ==
              if |vals| == 1 then Ok(done + [vals[0]], rest) else ReadElements(x, done + [vals[0]])
  {
    var sep := After(f, |vals|, i);
    var s := Print(f, vals[0], depth + 1) + (sep + x);
    ElementText(f, vals, i, depth, Closing(f, depth, ']', rest));
    ElementParts(f, |vals|, i, depth, x, rest);
    ReadElementsSkips(Lead(f, i, depth), s, done);
    PrintStarts(f, vals[0], depth + 1, sep + x);
    if |vals| == 1 {
      ElementThenEnd(s, done, vals[0], sep + Spaces(f.indent * depth), rest);
    } else {
      ElementThenMore(s, done, vals[0], sep, x);
    }
  }

  lemma NothingPrinted(f: Format, vals: seq<Value>, members: seq<Member>, i: nat, depth: nat, rest: string)
    requires |vals| <= 1 && |members| <= 1
    ensures vals != [] ==>
      PrintElements(f, vals[1..], i, depth) + Closing(f, depth, ']', rest) == Closing(f, depth, ']', rest)
    ensures members != [] ==>
      PrintMembers(f, members[1..], depth) + Closing(f, depth, '}', rest) == Closing(f, depth, '}', rest)
  {
  }

  lemma ElementsJoin(f: Format, vals: seq<Value>, i: nat, depth: nat, done: seq<Value>, rest: string, x: string)
    requires vals != [] && Printable(vals[0])
    requires x == PrintElements(f, vals[1..], i + 1, depth) + Closing(f, depth, ']', rest)
    requires var after := After(f, |vals|, i) + x;
             ReadValue(Print(f, vals[0], depth + 1) + after) == Ok(vals[0], after)
    requires ReadElements(x, done + [vals[0]]) == Ok((done + [vals[0]]) + vals[1..], rest)
    ensures ReadElements(PrintElements(f, vals, i, depth) + Closing(f, depth, ']', rest), done) == Ok(done + vals, rest)
  {
    if |vals| == 1 {
      NothingPrinted(f, vals, [], i + 1, depth, rest);
    }
    DoneFirst(done, vals);
    ElementStep(f, vals, i, depth, done, rest, x);
  }

  lemma DoneFirst<T>(done: seq<T>, more: seq<T>)
    requires more != []
    ensures (done + [more[0]]) + more[1..] == done + more
    ensures |more| == 1 ==> done + [more[0]] == done + more
  {
    if |more| == 1 { assert more == [more[0]]; }
  }

  lemma {:induction false} ElementsRoundTrip(f: Format, vals: seq<Value>, i: nat, depth: nat, done: seq<Value>,
                                             rest: string)
    requires AllPrintable(vals)
    ensures ReadElements(PrintElements(f, vals, i, depth) + Closing(f, depth, ']', rest), done) == Ok(done + vals, rest)
    decreases vals, 0
  {
    if vals == [] {
      assert PrintElements(f, vals, i, depth) + Closing(f, depth, ']', rest) == Closing(f, depth, ']', rest);
      assert done + vals == done;
      EmptyRest(f, depth, done, [], rest);
    } else {
      PrintableTail(vals);
      var x := PrintElements(f, vals[1..], i + 1, depth) + Closing(f, depth, ']', rest);
      ElementBoundary(f, vals, i, depth, x, rest);
      ValueRoundTrip(f, vals[0], depth + 1, After(f, |vals|, i) + x);
      ElementsRoundTrip(f, vals[1..], i + 1, depth, done + [vals[0]], rest);
      ElementsJoin(f, vals, i, depth, done, rest, x);
    }
  }

  lemma ElementBoundary(f: Format, vals: seq<Value>, i: nat, depth: nat, x: string, rest: string)
    requires vals != []
    requires x == PrintElements(f, vals[1..], i + 1, depth) + Closing(f, depth, ']', rest)
    ensures Boundary(After(f, |vals|, i) + x)
  {
    if |vals| == 1 {
      NothingPrinted(f, vals, [], i + 1, depth, rest);
    }
    ElementParts(f, |vals|, i, depth, x, rest);
  }

  lemma RegroupMember(a: string, k: string, b: string, c: string, p: string, s: string, t: string, e: string)
    ensures a + k + (b + ":" + c) + p + s + t + e == a + (k + (b + (":" + (c + (p + (s + (t + e)))))))
  {
    Regroup(a, k, b + ":" + c, p, s + t + e);
    assert a + k + (b + ":" + c) + p + s + t + e == a + k + (b + ":" + c) + p + (s + t + e);
    assert s + t + e == s + (t + e);
    Regroup(b, ":", c, p, s + (t + e));
    Regroup(b, ":", c, "", p + (s + (t + e)));
    assert (b + ":" + c) + (p + (s + (t + e))) == b + (":" + (c + (p + (s + (t + e)))));
  }

  lemma MemberText(f: Format, members: seq<Member>, depth: nat, closing: string)
    requires members != []
    ensures PrintMembers(f, members, depth) + closing ==
      Spaces(f.indent * (depth + 1)) + (EncodeStr(members[0].key) + (Spaces(f.colSpaceBefore) + (":" +
        (Spaces(f.colSpaceAfter) + (Print(f, members[0].val, depth + 1) +
          (Separator(f, |members| == 1, f.elemPerLine) + (PrintMembers(f, members[1..], depth) + closing)))))))
  {
    RegroupMember(Spaces(f.indent * (depth + 1)), EncodeStr(members[0].key), Spaces(f.colSpaceBefore),
      Spaces(f.colSpaceAfter), Print(f, members[0].val, depth + 1),
      Separator(f, |members| == 1, f.elemPerLine), PrintMembers(f, members[1..], depth), closing);
  }

  lemma MemberParts(f: Format, last: bool, depth: nat, x: string, rest: string)
    requires last ==> x == Closing(f, depth, '}', rest)
    ensures var sep := Separator(f, last, f.elemPerLine);
            && Boundary(sep + x)
            && (!last ==> Peeks(sep, ',') && Blank(sep[1..]))
            && (last ==> Blank(sep + Spaces(f.indent * depth)))
            && (last ==> sep + x == (sep + Spaces(f.indent * depth)) + ("}" + rest))
  {
    BlankParts(f, last, f.elemPerLine, f.indent * depth);
    TailIsBoundary(f, last, f.elemPerLine, depth, '}', x, rest);
  }

  /** From the indentation before a key to the value after its colon. */
  lemma KeyText(f: Format, depth: nat, key: string, p: string, v: Value, y: string, done: seq<Member>,
                c: string, u: string)
    requires ReadValue(p) == Ok(v, y)
    requires c == Spaces(f.colSpaceAfter) + p && u == Spaces(f.colSpaceBefore) + (":" + c)
    ensures ReadStr(EncodeStr(key) + u) == Ok(key, u) && Peeks(SkipWhite(EncodeStr(key) + u), '"')
    ensures SkipWhite(u) == ":" + c && ReadValue(c) == Ok(v, y)
    ensures ReadMembers(Spaces(f.indent * (depth + 1)) + (EncodeStr(key) + u), done) ==
      ReadMembers(EncodeStr(key) + u, done)
  {
    BlankParts(f, true, true, f.colSpaceAfter);
    ReadValueSkips(Spaces(f.colSpaceAfter), p);
    BlankParts(f, true, true, f.colSpaceBefore);
    SkipBlank(Spaces(f.colSpaceBefore), ":" + c);
    StrRoundTrip(key, u);
    BlankParts(f, true, true, f.indent * (depth + 1));
    ReadMembersSkips(Spaces(f.indent * (depth + 1)), EncodeStr(key) + u, done);
  }

  /** One member read, given that its value reads back. */
  lemma MemberStep(f: Format, members: seq<Member>, depth: nat, done: seq<Member>, rest: string, x: string)
    requires members != [] && FreshKey(members[0].key, done)
    requires x == PrintMembers(f, members[1..], depth) + Closing(f, depth, '}', rest)
    requires |members| == 1 ==> x == Closing(f, depth, '}', rest)
    requires var after := Separator(f, |members| == 1, f.elemPerLine) + x;
             ReadValue(Print(f, members[0].val, depth + 1) + after) == Ok(members[0].val, after)
    ensures ReadMembers(PrintMembers(f, members, depth) + Closing(f, depth, '}', rest), done) ==
              if |members| == 1 then Ok(done + [members[0]], rest) else ReadMembers(x, done + [members[0]])
  {
    var m := members[0];
    var sep := Separator(f, |members| == 1, f.elemPerLine);
    var p := Print(f, m.val, depth + 1) + (sep + x);
    var c := Spaces(f.colSpaceAfter) + p;
    var u := Spaces(f.colSpaceBefore) + (":" + c);
    MemberText(f, members, depth, Closing(f, depth, '}', rest));
    MemberParts(f, |members| == 1, depth, x, rest);
    KeyText(f, depth, m.key, p, m.val, sep + x, done, c, u);
    assert Member(m.key, m.val) == m;
    if |members| == 1 {
      MemberThenEnd(EncodeStr(m.key) + u, done, m.key, u, c, m.val, sep + Spaces(f.indent * depth), rest);
    } else {
      MemberThenMore(EncodeStr(m.key) + u, done, m.key, u, c, m.val, sep, x);
    }
  }

  lemma MembersJoin(f: Format, members: seq<Member>, depth: nat, done: seq<Member>, rest: string, x: string)
    requires members != [] && FreshKey(members[0].key, done)
    requires x == PrintMembers(f, members[1..], depth) + Closing(f, depth, '}', rest)
    requires var after := Separator(f, |members| == 1, f.elemPerLine) + x;
             ReadValue(Print(f, members[0].val, depth + 1) + after) == Ok(members[0].val, after)
    requires ReadMembers(x, done + [members[0]]) == Ok((done + [members[0]]) + members[1..], rest)
    ensures ReadMembers(PrintMembers(f, members, depth) + Closing(f, depth, '}', rest), done) ==
      Ok(done + members, rest)
  {
    if |members| == 1 {
      NothingPrinted(f, [], members, 0, depth, rest);
    }
    DoneFirst(done, members);
    MemberStep(f, members, depth, done, rest, x);
  }

  lemma MemberBoundary(f: Format, members: seq<Member>, depth: nat, x: string, rest: string)
    requires members != []
    requires x == PrintMembers(f, members[1..], depth) + Closing(f, depth, '}', rest)
    ensures Boundary(Separator(f, |members| == 1, f.elemPerLine) + x)
  {
    if |members| == 1 {
      NothingPrinted(f, [], members, 0, depth, rest);
    }
    MemberParts(f, |members| == 1, depth, x, rest);
  }

  lemma {:induction false} MembersRoundTrip(f: Format, members: seq<Member>, depth: nat, done: seq<Member>,
                                            rest: string)
    requires Addable(members, done)
    ensures ReadMembers(PrintMembers(f, members, depth) + Closing(f, depth, '}', rest), done) ==
      Ok(done + members, rest)
    decreases members, 0
  {
    if members == [] {
      assert PrintMembers(f, members, depth) + Closing(f, depth, '}', rest) == Closing(f, depth, '}', rest);
      assert done + members == done;
      EmptyRest(f, depth, [], done, rest);
    } else {
      AddableTail(members, done);
      var x := PrintMembers(f, members[1..], depth) + Closing(f, depth, '}', rest);
      MemberBoundary(f, members, depth, x, rest);
      ValueRoundTrip(f, members[0].val, depth + 1, Separator(f, |members| == 1, f.elemPerLine) + x);
      MembersRoundTrip(f, members[1..], depth, done + [members[0]], rest);
      MembersJoin(f, members, depth, done, rest, x);
    }
  }

  /** What json_writer prints, json_reader reads back, under every format setting. */
  lemma ObjectRoundTrip(f: Format, members: seq<Member>, rest: string)
    requires Printable(Obj(members))
    ensures ReadObject(Print(f, Obj(members), 0) + rest) == Ok(Obj(members), rest)
  {
    var more := PrintMembers(f, members, 0);
    MembersRoundTrip(f, members, 0, [], rest);
    assert [] + members == members;
    ContainerText(f, f.braceInLine, 0, '{', more, '}', rest);
    ObjectStarts(Print(f, Obj(members), 0) + rest, if f.elemPerLine then "\n" else "",
      more + Closing(f, 0, '}', rest), members, rest);
  }

  /** What Write puts out, Parse takes back. */
  method WriteThenParse(fmt: Format, members: seq<Member>) returns (r: JsonReader.Outcome<Value>)
    requires Usable(fmt) && Printable(Obj(members))
    ensures r == JsonReader.Done(Obj(members))
  {
    var text := JsonWriter.Write(fmt, members);
    ObjectRoundTrip(fmt, members, "");
    assert text + "" == text;
    r := JsonReader.Parse(text);
  }
}
