/** What printed text looks like, character by character, and what reading counts. */
module JsonLayout {
  import opened JsonFormat
  import JsonReader

  // ----------------------------------------------------------------- packed text

  /** json_format::init_packed. */
  const PACKED := Format(0, false, 0, 0, 0, 0, false, false, 1)

  /** json_format::init_nice. */
  const NICE := Format(4, true, 0, 1, 0, 1, false, false, 2)

  /** A value as its tokens, one right after the other. */
  function Compact(v: Value): string
    decreases v, 1
  {
    match v
    case Null => "null"
    case Bool(b) => if b then "true" else "false"
    case Num(num) => if num.Whole? then Digits(num.n) else num.chars
    case Str(s) => EncodeStr(s)
    case Arr(vals) => "[" + CompactAll(vals) + "]"
    case Obj(members) => "{" + CompactMembers(members) + "}"
  }

  function CompactAll(vals: seq<Value>): string
    decreases vals, 0
  {
    if vals == [] then ""
    else if |vals| == 1 then Compact(vals[0])
    else Compact(vals[0]) + "," + CompactAll(vals[1..])
  }

  function CompactMembers(members: seq<Member>): string
    decreases members, 0
  {
    if members == [] then ""
    else
      var m := EncodeStr(members[0].key) + ":" + Compact(members[0].val);
      if |members| == 1 then m else m + "," + CompactMembers(members[1..])
  }

  lemma PackedParts(depth: nat, i: nat)
    ensures Spaces(PACKED.indent * depth) == "" && Repeat('\n', 0) == "" && Spaces(0) == ""
    ensures Lead(PACKED, i, depth) == ""
    ensures Separator(PACKED, true, false) == "" && Separator(PACKED, false, false) == ","
    ensures Opening(PACKED, false, depth, '[') == "[" && Opening(PACKED, false, depth, '{') == "{"
    ensures Colon(PACKED) == ":"
  {
    assert PACKED.indent * depth == 0;
  }

  /** The packed format prints the tokens and nothing else, at any depth. */
  lemma {:induction false} PackedIsCompact(v: Value, depth: nat)
    ensures Print(PACKED, v, depth) == Compact(v)
    decreases v, 1
  {
    PackedParts(depth, 0);
    match v
    case Arr(vals) =>
      PackedAll(vals, 0, depth);
      assert "[" + CompactAll(vals) + "" + "]" == "[" + CompactAll(vals) + "]";
    case Obj(members) =>
      PackedMembers(members, depth);
      assert "{" + CompactMembers(members) + "" + "}" == "{" + CompactMembers(members) + "}";
    case _ =>
  }

  lemma {:induction false} PackedAll(vals: seq<Value>, i: nat, depth: nat)
    ensures PrintElements(PACKED, vals, i, depth) == CompactAll(vals)
    decreases vals, 0
  {
    if vals != [] {
      PackedIsCompact(vals[0], depth + 1);
      PackedAll(vals[1..], i + 1, depth);
      PackedParts(depth, i);
      var p := Compact(vals[0]);
      assert "" + p + "" + "" == p && "" + p + "," == p + ",";
    }
  }

  lemma {:induction false} PackedMembers(members: seq<Member>, depth: nat)
    ensures PrintMembers(PACKED, members, depth) == CompactMembers(members)
    decreases members, 0
  {
    if members != [] {
      PackedIsCompact(members[0].val, depth + 1);
      PackedMembers(members[1..], depth);
      PackedParts(depth + 1, 0);
      var k, p := EncodeStr(members[0].key), Compact(members[0].val);
      assert "" + k + ":" + p + "" + "" == k + ":" + p && "" + k + ":" + p + "," == k + ":" + p + ",";
    }
  }

  // ---------------------------------------------------------------- other formats

  lemma SpacesOf()
    ensures Spaces(0) == "" && Spaces(1) == " " && Spaces(2) == "  " && Spaces(4) == "    "
    ensures Spaces(8) == "        " && Repeat('\n', 0) == "" && Repeat('\n', 1) == "\n"
  {
  }

  const THREE := [Num(Whole(1)), Null, Bool(true)]

  lemma LastOfThree()
    ensures PrintElements(NICE, [Bool(true)], 2, 1) == "        true\n"
  {
    SpacesOf();
    assert [Bool(true)][1..] == [];
    assert PrintElements(NICE, [], 3, 1) == "";
  }

  lemma LastTwoOfThree()
    ensures PrintElements(NICE, [Null, Bool(true)], 1, 1) == "null, \n" + "        true\n"
  {
    SpacesOf();
    LastOfThree();
    assert [Null, Bool(true)][1..] == [Bool(true)];
    assert PrintElement(NICE, Null, 2, 1, 1) == "null, \n";
  }

  lemma AllThree()
    ensures PrintElements(NICE, THREE, 0, 1) == "        1, " + ("null, \n" + "        true\n")
  {
    SpacesOf();
    LastTwoOfThree();
    assert THREE[1..] == [Null, Bool(true)];
    assert Digits(1) == "1";
    assert PrintElement(NICE, THREE[0], 3, 0, 1) == "        1, ";
  }

  lemma KeyText(key: string)
    requires key == "a" || key == "k"
    ensures EncodeStr(key) == "\"" + key + "\""
  {
    assert key[1..] == "" && Escape("") == "" && Escape(key) == key;
  }

  lemma NiceArray()
    ensures Print(NICE, Arr(THREE), 1) == "[\n" + ("        1, " + ("null, \n" + "        true\n")) + "    " + "]"
  {
    SpacesOf();
    AllThree();
    assert Opening(NICE, false, 1, '[') == "[\n";
  }

  lemma NiceMember()
    ensures PrintMember(NICE, Member("a", Arr(THREE)), true, 0) ==
      "    " + ("\"" + "a" + "\"") + ": " + Print(NICE, Arr(THREE), 1) + "\n"
  {
    SpacesOf();
    KeyText("a");
    assert Colon(NICE) == ": " && Separator(NICE, true, true) == "\n";
  }

  lemma OneMember(f: Format, m: Member)
    ensures PrintMembers(f, [m], 0) == PrintMember(f, m, true, 0)
  {
    assert [m][1..] == [];
  }

  lemma NiceLines()
    ensures "{\n" + ("    " + ("\"" + "a" + "\"") + ": " +
        ("[\n" + ("        1, " + ("null, \n" + "        true\n")) + "    " + "]") + "\n") + "" + "}" ==
      "{\n" +
      "    \"a\": [\n" +
      "        1, null, \n" +
      "        true\n" +
      "    ]\n" +
      "}"
  {
  }

  /** Two elements to a line, four blanks a level, one after a colon and a comma. */
  lemma NiceExample()
    ensures Print(NICE, Obj([Member("a", Arr(THREE))]), 0) ==
      "{\n" +
      "    \"a\": [\n" +
      "        1, null, \n" +
      "        true\n" +
      "    ]\n" +
      "}"
  {
    NiceObject(PrintMember(NICE, Member("a", Arr(THREE)), true, 0));
    NiceArray();
    NiceMember();
    NiceLines();
  }

  lemma NiceObject(m: string)
    requires m == PrintMember(NICE, Member("a", Arr(THREE)), true, 0)
    ensures Print(NICE, Obj([Member("a", Arr(THREE))]), 0) == "{\n" + m + "" + "}"
  {
    SpacesOf();
    OneMember(NICE, Member("a", Arr(THREE)));
    assert Opening(NICE, false, 0, '{') == "{\n";
  }

  /** Brackets on their own lines, a blank line and two blanks after a comma, one before a colon. */
  const WIDE := Format(2, true, 1, 2, 1, 0, true, true, 1)

  lemma WideElements()
    ensures PrintElements(WIDE, [Null, Null], 0, 1) == "    null,  \n\n" + "    null\n"
  {
    SpacesOf();
    assert [Null, Null][1..] == [Null] && [Null][1..] == [];
    assert PrintElement(WIDE, Null, 1, 1, 1) == "    null\n";
    assert PrintElements(WIDE, [Null], 1, 1) == "    null\n";
    assert PrintElement(WIDE, Null, 2, 0, 1) == "    null,  \n\n";
  }

  lemma WideArray()
    ensures Print(WIDE, Arr([Null, Null]), 1) == "\n  [\n" + ("    null,  \n\n" + "    null\n") + "  " + "]"
  {
    SpacesOf();
    WideElements();
    assert Opening(WIDE, true, 1, '[') == "\n  [\n";
  }

  lemma WideMember()
    ensures PrintMember(WIDE, Member("k", Arr([Null, Null])), true, 0) ==
      "  " + ("\"" + "k" + "\"") + " :" + Print(WIDE, Arr([Null, Null]), 1) + "\n"
  {
    SpacesOf();
    KeyText("k");
    assert Colon(WIDE) == " :" && Separator(WIDE, true, true) == "\n";
  }

  lemma WideObject(m: string)
    requires m == PrintMember(WIDE, Member("k", Arr([Null, Null])), true, 0)
    ensures Print(WIDE, Obj([Member("k", Arr([Null, Null]))]), 0) == "\n{\n" + m + "" + "}"
  {
    SpacesOf();
    OneMember(WIDE, Member("k", Arr([Null, Null])));
    assert Opening(WIDE, true, 0, '{') == "\n{\n";
  }

  lemma WideLines()
    ensures "\n{\n" + ("  " + ("\"" + "k" + "\"") + " :" +
        ("\n  [\n" + ("    null,  \n\n" + "    null\n") + "  " + "]") + "\n") + "" + "}" ==
      "\n{\n" +
      "  \"k\" :" + "\n  [\n" +
      "    null,  \n\n" +
      "    null\n" +
      "  ]\n" +
      "}"
  {
  }

  lemma WideExample()
    ensures Print(WIDE, Obj([Member("k", Arr([Null, Null]))]), 0) ==
      "\n{\n" +
      "  \"k\" :" + "\n  [\n" +
      "    null,  \n\n" +
      "    null\n" +
      "  ]\n" +
      "}"
  {
    WideObject(PrintMember(WIDE, Member("k", Arr([Null, Null])), true, 0));
    WideArray();
    WideMember();
    WideLines();
  }

  // ------------------------------------------------------------ characters and numbers

  /** The seven characters that are escaped, and how; all others stand for themselves. */
  lemma EscapesAre(c: char)
    ensures EscapeChar('"') == "\\\"" && EscapeChar('\\') == "\\\\"
    ensures EscapeChar(8 as char) == "\\b" && EscapeChar(12 as char) == "\\f"
    ensures EscapeChar(10 as char) == "\\n" && EscapeChar(13 as char) == "\\r" && EscapeChar(9 as char) == "\\t"
    ensures c as int !in {8, 9, 10, 12, 13, 34, 92} ==> EscapeChar(c) == [c]
  {
  }

  function Tenth(n: nat, k: nat): nat
    decreases k
  {
    if k == 0 then n else Tenth(n / 10, k - 1)
  }

  /** The k-th character from the end is the k-th decimal digit. */
  lemma {:induction false} DigitsAre(n: nat, k: nat)
    requires k < |Digits(n)|
    ensures Digits(n)[|Digits(n)| - 1 - k] as int == 48 + Tenth(n, k) % 10
    ensures k > 0 && k == |Digits(n)| - 1 ==> Tenth(n, k) % 10 > 0
  {
    if n >= 10 && k > 0 {
      DigitsAre(n / 10, k - 1);
      LeadingDigit(n / 10);
      assert Digits(n)[..|Digits(n)| - 1] == Digits(n / 10);
    }
  }

  lemma {:induction false} LeadingDigit(n: nat)
    requires n > 0
    ensures Tenth(n, |Digits(n)| - 1) % 10 > 0
  {
    if n >= 10 { LeadingDigit(n / 10); }
  }

  // ----------------------------------------------------------------- what is read

  datatype Found = None | Some(val: Value)

  function Lookup(members: seq<Member>, key: string): Found {
    if members == [] then None
    else if members[0].key == key then Some(members[0].val)
    else Lookup(members[1..], key)
  }

  /** Of two members with one key the later one counts, and no other is touched. */
  lemma {:induction false} LaterCounts(members: seq<Member>, m: Member, key: string)
    ensures Lookup(Put(members, m), key) == if key == m.key then Some(m.val) else Lookup(members, key)
  {
    if members != [] && members[0].key != m.key {
      LaterCounts(members[1..], m, key);
    }
  }

  ghost function Newlines(s: string): set<nat> {
    set i: nat | i < |s| && s[i] == '\n'
  }

  /** The line is one more than the newlines passed. */
  lemma {:induction false} LineMeans(s: string)
    ensures JsonReader.LineOf(s) == 1 + |Newlines(s)|
  {
    if s != "" {
      var n := |s| - 1;
      LineMeans(s[..n]);
      if s[n] == '\n' {
        assert Newlines(s) == Newlines(s[..n]) + {n};
      } else {
        assert Newlines(s) == Newlines(s[..n]);
      }
    }
  }

  // ----------------------------------------------------------------------- errors

  lemma KeyA(rest: string)
    ensures ReadStr("\"a\"" + rest) == Ok("a", rest)
    ensures SkipWhite("\"a\"" + rest) == "\"a\"" + rest
  {
    var s := "\"a\"" + rest;
    assert s[1..] == "a\"" + rest && ("a\"" + rest)[1..] == "\"" + rest && ("\"" + rest)[1..] == rest;
    assert "" + "a" == "a";
    assert ReadChars("\"" + rest, "a") == Ok("a", rest);
    assert ReadChars("a\"" + rest, "") == ReadChars("\"" + rest, "" + "a");
  }

  lemma MemberA(x: string)
    ensures ReadObject("{\"a\":" + x) ==
      match ReadValue(x)
      case Err(e, rest) => Err(e, rest)
      case Ok(v, rest) =>
        var w := SkipWhite(rest);
        match (if Peeks(w, ',') then ReadMembers(w[1..], [Member("a", v)])
               else if Peeks(w, '}') then ReadMembers(w, [Member("a", v)])
               else Err(ExpectedCommaOrBrace, w))
        case Ok(members, rest') => Ok(Obj(members), rest')
        case Err(e, rest') => Err(e, rest')
  {
    var s := "{\"a\":" + x;
    assert s[1..] == "\"a\"" + (":" + x);
    KeyA(":" + x);
    assert (":" + x)[1..] == x;
  }

  lemma OneRead(x: string)
    requires x == "" || !InNumber(x[0])
    ensures ReadValue("1" + x) == Ok(Num(Whole(1)), x)
  {
    var s := "1" + x;
    assert s[1..] == x && NumberChars(x) == "" && NumberChars(s) == "1";
    assert "1"[..0] == "" && NatOf("") == 0 && NatOf("1") == 1;
  }

  lemma NotAnObject()
    ensures ReadObject("x") == Err(ExpectedBrace, "")
    ensures ReadObject("{1}") == Err(ExpectedQuote, "}")
    ensures ReadObject("{\"a\"1") == Err(ExpectedColon, "")
    ensures ReadObject("{\"a") == Err(EofInString, "")
  {
    assert "x"[1..] == "" && "{1}"[1..] == "1}" && "1}"[1..] == "}";
    assert "{\"a\"1"[1..] == "\"a\"" + "1";
    KeyA("1");
    assert "1"[1..] == "";
    assert "{\"a"[1..] == "\"a" && "\"a"[1..] == "a" && "a"[1..] == "";
    assert ReadChars("", "" + "a") == Err(EofInString, "");
    assert ReadChars("a", "") == Err(EofInString, "");
  }

  lemma NoValue()
    ensures ReadObject("{\"a\":" + "}") == Err(InvalidValue, "}")
  {
    MemberA("}");
  }

  lemma NoCommaInObject()
    ensures ReadObject("{\"a\":" + ("1" + " 2}")) == Err(ExpectedCommaOrBrace, "2}")
  {
    MemberA("1" + " 2}");
    assert " 2}"[1..] == "2}";
    OneRead(" 2}");
  }

  lemma NoCommaInArray()
    ensures ReadObject("{\"a\":" + ("[" + ("1" + " 2]}"))) == Err(ExpectedCommaOrBracket, "2]}")
  {
    var x := "1" + " 2]}";
    MemberA("[" + x);
    assert ("[" + x)[1..] == x && " 2]}"[1..] == "2]}";
    OneRead(" 2]}");
    assert SkipWhite(x) == x;
    assert ReadElements(x, []) == Err(ExpectedCommaOrBracket, "2]}");
  }

  lemma NotTrue()
    ensures ReadObject("{\"a\":" + "tru}") == Err(ExpectedBool, "")
  {
    MemberA("tru}");
    assert "true"[1..] == "rue" && "rue"[1..] == "ue" && "ue"[1..] == "e";
    assert "tru}"[1..] == "ru}" && "ru}"[1..] == "u}" && "u}"[1..] == "}" && "}"[1..] == "";
    assert ReadWord("}", "e", ExpectedBool) == Err(ExpectedBool, "");
    assert ReadWord("u}", "ue", ExpectedBool) == Err(ExpectedBool, "");
    assert ReadWord("ru}", "rue", ExpectedBool) == Err(ExpectedBool, "");
  }

  lemma NotNull()
    ensures ReadObject("{\"a\":" + "nul}") == Err(ExpectedNull, "")
  {
    MemberA("nul}");
    assert "null"[1..] == "ull" && "ull"[1..] == "ll" && "ll"[1..] == "l";
    assert "nul}"[1..] == "ul}" && "ul}"[1..] == "l}" && "l}"[1..] == "}" && "}"[1..] == "";
    assert ReadWord("}", "l", ExpectedNull) == Err(ExpectedNull, "");
    assert ReadWord("l}", "ll", ExpectedNull) == Err(ExpectedNull, "");
    assert ReadWord("ul}", "ull", ExpectedNull) == Err(ExpectedNull, "");
  }

  /** One text for each error, and what is left of it there. */
  lemma ErrorExamples()
    ensures ReadObject("x") == Err(ExpectedBrace, "") && ReadObject("{1}") == Err(ExpectedQuote, "}")
    ensures ReadObject("{\"a\"1") == Err(ExpectedColon, "") && ReadObject("{\"a") == Err(EofInString, "")
    ensures ReadObject("{\"a\":" + "}") == Err(InvalidValue, "}")
    ensures ReadObject("{\"a\":" + ("1" + " 2}")) == Err(ExpectedCommaOrBrace, "2}")
    ensures ReadObject("{\"a\":" + ("[" + ("1" + " 2]}"))) == Err(ExpectedCommaOrBracket, "2]}")
    ensures ReadObject("{\"a\":" + "tru}") == Err(ExpectedBool, "")
    ensures ReadObject("{\"a\":" + "nul}") == Err(ExpectedNull, "")
  {
    NotAnObject();
    NoValue();
    NoCommaInObject();
    NoCommaInArray();
    NotTrue();
    NotNull();
  }
}
