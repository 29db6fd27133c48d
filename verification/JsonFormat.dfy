/** JSON values, their printed text under every format setting, and the parser as a function
    from text to a value and the text left over. */
module JsonFormat {

  /** A number token: its value when it is all digits, otherwise just the characters, what a
      stream extraction makes of them being outside this model. */
  datatype Number = Whole(n: nat) | Token(chars: string)

  datatype Value =
    | Null
    | Bool(b: bool)
    | Num(num: Number)
    | Str(s: string)
    | Arr(vals: seq<Value>)
    | Obj(members: seq<Member>)

  datatype Member = Member(key: string, val: Value)

  // ------------------------------------------------------------------ printing

  datatype Format = Format(
    indent: nat, elemPerLine: bool, elemDist: nat, commaSpaces: nat,
    colSpaceBefore: nat, colSpaceAfter: nat, braceInLine: bool,
    bracketInLine: bool, elemsPerLine: nat)

  /** The printer divides by elems_per_line only when it indents or breaks lines. */
  predicate Usable(f: Format) {
    (f.indent == 0 && !f.elemPerLine) || f.elemsPerLine > 0
  }

  const BS := 8 as char
  const FF := 12 as char
  const VT := 11 as char

  function Repeat(c: char, n: nat): (s: string)
    ensures |s| == n && forall i :: 0 <= i < n ==> s[i] == c
  {
    if n == 0 then "" else [c] + Repeat(c, n - 1)
  }

  function Spaces(n: nat): string { Repeat(' ', n) }

  function EscapeChar(c: char): string {
    if c == '"' then "\\\""
    else if c == '\\' then "\\\\"
    else if c == BS then "\\b"
    else if c == FF then "\\f"
    else if c == '\n' then "\\n"
    else if c == '\r' then "\\r"
    else if c == '\t' then "\\t"
    else [c]
  }

  function Escape(s: string): string {
    if s == "" then "" else EscapeChar(s[0]) + Escape(s[1..])
  }

  function EncodeStr(s: string): string {
    "\"" + Escape(s) + "\""
  }

  function DigitChar(d: nat): char
    requires d < 10
  {
    (d + 48) as char
  }

  function Digits(n: nat): string {
    if n < 10 then [DigitChar(n)] else Digits(n / 10) + [DigitChar(n % 10)]
  }

  /** Values whose numbers print as plain digits: a stream's default precision keeps six. */
  ghost predicate Printable(v: Value) {
    match v
    case Num(num) => num.Whole? && num.n <= 999999
    case Arr(vals) => forall i :: 0 <= i < |vals| ==> Printable(vals[i])
    case Obj(members) =>
      && (forall i :: 0 <= i < |members| ==> Printable(members[i].val))
      && (forall i, j :: 0 <= i < j < |members| ==> members[i].key != members[j].key)
    case _ => true
  }

  /** What follows an element: a separator unless it is the last one, then the line break. */
  function Separator(f: Format, last: bool, lineBreak: bool): string {
    (if last then "" else "," + Spaces(f.commaSpaces) + Repeat('\n', f.elemDist)) +
    (if lineBreak then "\n" else "")
  }

  function Opening(f: Format, inLine: bool, depth: nat, bracket: char): string {
    (if inLine then "\n" + Spaces(f.indent * depth) else "") + [bracket] + (if f.elemPerLine then "\n" else "")
  }

  /** A new line of elements starts at index i. */
  predicate StartsLine(f: Format, i: nat) {
    f.elemsPerLine > 0 && i % f.elemsPerLine == 0
  }

  function Lead(f: Format, i: nat, depth: nat): string {
    if StartsLine(f, i) then Spaces(f.indent * (depth + 1)) else ""
  }

  /** What follows element i when n elements are left from it on. */
  function After(f: Format, n: nat, i: nat): string {
    Separator(f, n == 1, f.elemPerLine && (n == 1 || StartsLine(f, i + 1)))
  }

  function Print(f: Format, v: Value, depth: nat): string
    decreases v, 1
  {
    match v
    case Null => "null"
    case Bool(b) => if b then "true" else "false"
    case Num(num) => if num.Whole? then Digits(num.n) else num.chars
    case Str(s) => EncodeStr(s)
    case Arr(vals) =>
      Opening(f, f.bracketInLine, depth, '[') + PrintElements(f, vals, 0, depth) + Spaces(f.indent * depth) + "]"
    case Obj(members) =>
      Opening(f, f.braceInLine, depth, '{') + PrintMembers(f, members, depth) + Spaces(f.indent * depth) + "}"
  }

  /** Element i of an array, n elements being left from it on. */
  function PrintElement(f: Format, v: Value, n: nat, i: nat, depth: nat): string
    decreases v, 2
  {
    Lead(f, i, depth) + Print(f, v, depth + 1) + After(f, n, i)
  }

  function PrintMember(f: Format, m: Member, last: bool, depth: nat): string
    decreases m, 2
  {
    Spaces(f.indent * (depth + 1)) + EncodeStr(m.key) + Colon(f) + Print(f, m.val, depth + 1) +
    Separator(f, last, f.elemPerLine)
  }

  /** The elements from index i on, the array ending with them. */
  function PrintElements(f: Format, vals: seq<Value>, i: nat, depth: nat): string
    decreases vals, 0
  {
    if vals == [] then ""
    else
      PrintElement(f, vals[0], |vals|, i, depth) + PrintElements(f, vals[1..], i + 1, depth)
  }

  function Colon(f: Format): string {
    Spaces(f.colSpaceBefore) + ":" + Spaces(f.colSpaceAfter)
  }

  function PrintMembers(f: Format, members: seq<Member>, depth: nat): string
    decreases members, 0
  {
    if members == [] then ""
    else
      PrintMember(f, members[0], |members| == 1, depth) + PrintMembers(f, members[1..], depth)
  }

  // ------------------------------------------------------------------- parsing

  datatype Error =
    | ExpectedQuote | EofInString | ExpectedBrace | ExpectedColon | ExpectedCommaOrBrace
    | ExpectedBracket | ExpectedCommaOrBracket | ExpectedBool | ExpectedNull | InvalidValue

  /** rest is the text not yet consumed, also at the point of an error. */
  datatype Parsed<T> = Ok(value: T, rest: string) | Err(error: Error, rest: string)

  predicate IsSpace(c: char) {
    c == ' ' || c == '\t' || c == '\n' || c == VT || c == FF || c == '\r'
  }

  predicate IsDigit(c: char) {
    '0' <= c <= '9'
  }

  predicate InNumber(c: char) {
    IsDigit(c) || c == '.' || c == '-'
  }

  function SkipWhite(s: string): (r: string)
    ensures |r| <= |s|
    ensures r != "" ==> !IsSpace(r[0])
  {
    if s == "" || !IsSpace(s[0]) then s else SkipWhite(s[1..])
  }

  predicate Peeks(s: string, c: char) {
    s != "" && s[0] == c
  }

  /** The text after one get(), which stays at the end of the input. */
  function Get(s: string): (r: string)
    ensures |r| <= |s|
  {
    if s == "" then s else s[1..]
  }

  function Unescape(c: char): string {
    if c == '"' || c == '\\' || c == '/' then [c]
    else if c == 'b' then [BS]
    else if c == 'f' then [FF]
    else if c == 'n' then "\n"
    else if c == 'r' then "\r"
    else if c == 't' then "\t"
    else ""
  }

  function ReadChars(s: string, out: string): (r: Parsed<string>)
    ensures r.Ok? ==> |r.rest| < |s|
    decreases |s|
  {
    if s == "" then Err(EofInString, s)
    else if s[0] == '"' then Ok(out, s[1..])
    else if s[0] != '\\' then ReadChars(s[1..], out + [s[0]])
    else if |s| == 1 then Err(EofInString, "")
    else ReadChars(s[2..], out + Unescape(s[1]))
  }

  function ReadStr(s: string): (r: Parsed<string>)
    ensures r.Ok? ==> |r.rest| < |s|
  {
    var t := SkipWhite(s);
    if !Peeks(t, '"') then Err(ExpectedQuote, Get(t)) else ReadChars(t[1..], "")
  }

  /** A name and the colon after it. */
  function ReadKey(s: string): (r: Parsed<string>)
    ensures r.Ok? ==> |r.rest| < |s|
  {
    match ReadStr(s)
    case Err(e, rest) => Err(e, rest)
    case Ok(key, rest) =>
      var u := SkipWhite(rest);
      if Peeks(u, ':') then Ok(key, u[1..]) else Err(ExpectedColon, Get(u))
  }

  function NumberChars(s: string): (t: string)
    ensures |t| <= |s| && s[..|t|] == t
    ensures s != "" && InNumber(s[0]) ==> |t| > 0
  {
    if s == "" || !InNumber(s[0]) then "" else [s[0]] + NumberChars(s[1..])
  }

  predicate AllDigits(s: string) {
    forall i :: 0 <= i < |s| ==> IsDigit(s[i])
  }

  function NatOf(s: string): nat
    requires AllDigits(s)
  {
    if s == "" then 0 else NatOf(s[..|s| - 1]) * 10 + (s[|s| - 1] as nat - 48)
  }

  function NumberOf(t: string): Number {
    if AllDigits(t) then Whole(NatOf(t)) else Token(t)
  }

  function ReadNumber(s: string): (r: Parsed<Value>)
    requires s != "" && IsDigit(s[0])
    ensures r.Ok? ==> |r.rest| < |s|
  {
    var t := NumberChars(s);
    Ok(Num(NumberOf(t)), s[|t|..])
  }

  /** Compares get()s with the letters of a word, stopping at the first difference. */
  function ReadWord(s: string, word: string, error: Error): Parsed<()> {
    if word == "" then Ok((), s)
    else if Peeks(s, word[0]) then ReadWord(s[1..], word[1..], error)
    else Err(error, Get(s))
  }

  lemma {:induction false} ReadWordConsumes(s: string, word: string, error: Error)
    ensures var r := ReadWord(s, word, error); r.Ok? ==> |r.rest| + |word| == |s|
    decreases |word|
  {
    if word != "" && Peeks(s, word[0]) {
      ReadWordConsumes(s[1..], word[1..], error);
    }
  }

  function ReadConst(s: string, word: string, v: Value, error: Error): (r: Parsed<Value>)
    requires word != ""
    ensures r.Ok? ==> |r.rest| < |s|
  {
    ReadWordConsumes(s, word, error);
    match ReadWord(s, word, error)
    case Ok(_, rest) => Ok(v, rest)
    case Err(e, rest) => Err(e, rest)
  }

  /** std::unordered_map's operator[] assignment. */
  function Put(members: seq<Member>, m: Member): seq<Member> {
    if members == [] then [m]
    else if members[0].key == m.key then [m] + members[1..]
    else [members[0]] + Put(members[1..], m)
  }

  function ReadValue(s: string): (r: Parsed<Value>)
    ensures r.Ok? ==> |r.rest| < |s|
    decreases |s|, 1
  {
    var t := SkipWhite(s);
    if t == "" then Err(InvalidValue, t)
    else if t[0] == '{' then ReadObject(t)
    else if t[0] == '[' then
      (match ReadElements(t[1..], [])
       case Ok(vals, rest) => Ok(Arr(vals), rest)
       case Err(e, rest) => Err(e, rest))
    else if t[0] == '"' then
      (match ReadStr(t)
       case Ok(str, rest) => Ok(Str(str), rest)
       case Err(e, rest) => Err(e, rest))
    else if t[0] == 't' then ReadConst(t, "true", Bool(true), ExpectedBool)
    else if t[0] == 'f' then ReadConst(t, "false", Bool(false), ExpectedBool)
    else if t[0] == 'n' then ReadConst(t, "null", Null, ExpectedNull)
    else if IsDigit(t[0]) then ReadNumber(t)
    else Err(InvalidValue, t)
  }

  function ReadObject(s: string): (r: Parsed<Value>)
    ensures r.Ok? ==> |r.rest| < |s|
    decreases |s|, 0
  {
    var t := SkipWhite(s);
    if !Peeks(t, '{') then Err(ExpectedBrace, Get(t))
    else match ReadMembers(t[1..], [])
      case Ok(members, rest) => Ok(Obj(members), rest)
      case Err(e, rest) => Err(e, rest)
  }

  function ReadElements(s: string, vals: seq<Value>): (r: Parsed<seq<Value>>)
    ensures r.Ok? ==> |r.rest| < |s|
    decreases |s|, 2
  {
    var t := SkipWhite(s);
    if Peeks(t, ']') then Ok(vals, t[1..])
    else match ReadValue(t)
      case Err(e, rest) => Err(e, rest)
      case Ok(v, rest) =>
        var u := SkipWhite(rest);
        if Peeks(u, ',') then ReadElements(u[1..], vals + [v])
        else if Peeks(u, ']') then ReadElements(u, vals + [v])
        else Err(ExpectedCommaOrBracket, u)
  }

  function ReadMembers(s: string, members: seq<Member>): (r: Parsed<seq<Member>>)
    ensures r.Ok? ==> |r.rest| < |s|
    decreases |s|, 2
  {
    var t := SkipWhite(s);
    if Peeks(t, '}') then Ok(members, t[1..])
    else match ReadKey(t)
      case Err(e, rest) => Err(e, rest)
      case Ok(key, afterColon) =>
        match ReadValue(afterColon)
        case Err(e, rest) => Err(e, rest)
        case Ok(v, rest) =>
          var w := SkipWhite(rest);
          if Peeks(w, ',') then ReadMembers(w[1..], Put(members, Member(key, v)))
          else if Peeks(w, '}') then ReadMembers(w, Put(members, Member(key, v)))
          else Err(ExpectedCommaOrBrace, w)
  }
}
