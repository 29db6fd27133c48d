/** The parser over a stream that counts lines and columns: each method does what the parsing
    function of the same text does, and an error names the place where it was met. */
module JsonReader {
  import opened JsonFormat

  /** One more than the newlines in the text consumed. */
  function LineOf(s: string): nat {
    if s == "" then 1 else LineOf(s[..|s| - 1]) + if s[|s| - 1] == '\n' then 1 else 0
  }

  /** One more than the characters consumed since the last newline. */
  function ColumnOf(s: string): nat {
    if s == "" || s[|s| - 1] == '\n' then 1 else ColumnOf(s[..|s| - 1]) + 1
  }

  /** The column counts back to the last newline, or to the start. */
  lemma {:induction false} ColumnMeans(s: string)
    ensures var k := ColumnOf(s) - 1;
            && 0 <= k <= |s|
            && (forall i :: |s| - k <= i < |s| ==> s[i] != '\n')
            && (k < |s| ==> s[|s| - k - 1] == '\n')
  {
    if s != "" && s[|s| - 1] != '\n' {
      ColumnMeans(s[..|s| - 1]);
    }
  }

  datatype Outcome<T> = Done(value: T) | Failed(error: Error, line: nat, column: nat)

  lemma NextInNumber(s: string, str: string, left: string)
    requires |str| < |s| && left == s[|str|..] && InNumber(left[0])
    ensures str + NumberChars(left) == str + [left[0]] + NumberChars(left[1..])
    ensures left[1..] == s[|str| + 1..]
  {
  }

  class Lexer {
    const text: string
    var at: nat
    var ln: nat
    var col: nat

    ghost predicate Valid()
      reads this
    {
      at <= |text| && ln == LineOf(text[..at]) && col == ColumnOf(text[..at])
    }

    ghost function Left(): string
      requires Valid()
      reads this
    {
      text[at..]
    }

    /** The outcome is the parser's, the text left is the parser's, and a failure reports the
        line and column of that place. */
    ghost predicate Agrees<T>(r: Outcome<T>, expected: Parsed<T>)
      requires Valid()
      reads this
    {
      && Left() == expected.rest
      && r == match expected
           case Ok(v, _) => Done(v)
           case Err(e, _) => Failed(e, LineOf(text[..at]), ColumnOf(text[..at]))
    }

    constructor (text: string)
      ensures Valid() && Left() == text && this.text == text
    {
      this.text, at, ln, col := text, 0, 1, 1;
    }

    /** The empty string stands for the end of the input. */
    method GetChar() returns (c: string)
      requires Valid()
      modifies this
      ensures Valid() && at >= old(at)
      ensures c == if old(Left()) == "" then "" else [old(Left())[0]]
      ensures Left() == Get(old(Left()))
    {
      if at == |text| {
        return "";
      }
      c := [text[at]];
      assert text[..at + 1][..at] == text[..at];
      if text[at] == '\n' {
        ln, col := ln + 1, 1;
      } else {
        col := col + 1;
      }
      at := at + 1;
    }

    method Peek() returns (c: string)
      requires Valid()
      ensures c == if Left() == "" then "" else [Left()[0]]
    {
      c := if at == |text| then "" else [text[at]];
    }

    method SkipBlanks()
      requires Valid()
      modifies this
      ensures Valid() && at >= old(at) && Left() == SkipWhite(old(Left()))
    {
      var c := Peek();
      while c != "" && IsSpace(c[0])
        invariant Valid() && at >= old(at) && SkipWhite(Left()) == SkipWhite(old(Left()))
        invariant c == if Left() == "" then "" else [Left()[0]]
        decreases |text| - at
      {
        var _ := GetChar();
        c := Peek();
      }
    }

    method Chars() returns (r: Outcome<string>)
      requires Valid()
      modifies this
      ensures Valid() && at >= old(at) && Agrees(r, ReadChars(old(Left()), ""))
    {
      var out := "";
      while true
        invariant Valid() && at >= old(at) && ReadChars(Left(), out) == ReadChars(old(Left()), "")
        decreases |text| - at
      {
        var c := GetChar();
        if c == "" {
          return Failed(EofInString, ln, col);
        }
        if c == "\"" {
          return Done(out);
        }
        if c == "\\" {
          c := GetChar();
          if c == "" {
            return Failed(EofInString, ln, col);
          }
          out := out + Unescape(c[0]);
        } else {
          out := out + c;
        }
      }
    }

    method StrOf() returns (r: Outcome<string>)
      requires Valid()
      modifies this
      ensures Valid() && at >= old(at) && Agrees(r, ReadStr(old(Left())))
    {
      SkipBlanks();
      var c := GetChar();
      if c != "\"" {
        return Failed(ExpectedQuote, ln, col);
      }
      r := Chars();
    }

    method KeyOf() returns (r: Outcome<string>)
      requires Valid()
      modifies this
      ensures Valid() && at >= old(at) && (r.Done? ==> at > old(at)) && Agrees(r, ReadKey(old(Left())))
    {
      r := StrOf();
      if r.Done? {
        SkipBlanks();
        var c := GetChar();
        if c != ":" {
          r := Failed(ExpectedColon, ln, col);
        }
      }
    }

    method NumberOf() returns (r: Outcome<Value>)
      requires Valid() && Left() != "" && IsDigit(Left()[0])
      modifies this
      ensures Valid() && at >= old(at) && Agrees(r, ReadNumber(old(Left())))
    {
      var str := "";
      var c := Peek();
      while c != "" && InNumber(c[0])
        invariant Valid() && at >= old(at)
        invariant c == if Left() == "" then "" else [Left()[0]]
        invariant NumberChars(old(Left())) == str + NumberChars(Left())
        invariant Left() == old(Left())[|str|..] && |str| <= |old(Left())|
        decreases |text| - at
      {
        NextInNumber(old(Left()), str, Left());
        c := GetChar();
        str := str + c;
        c := Peek();
      }
      assert NumberChars(Left()) == "" && str + "" == str;
      r := Done(Num(JsonFormat.NumberOf(str)));
    }

    /** The rest of a word, letter by letter up to the first that differs. */
    method Letters(word: string, error: Error) returns (r: Outcome<()>)
      requires Valid()
      modifies this
      ensures Valid() && at >= old(at) && Agrees(r, ReadWord(old(Left()), word, error))
      decreases |word|
    {
      if word == "" {
        return Done(());
      }
      var c := GetChar();
      if c != [word[0]] {
        return Failed(error, ln, col);
      }
      r := Letters(word[1..], error);
    }

    method Constant(word: string, v: Value, error: Error) returns (r: Outcome<Value>)
      requires Valid() && word != ""
      modifies this
      ensures Valid() && at >= old(at) && Agrees(r, ReadConst(old(Left()), word, v, error))
    {
      var w := Letters(word, error);
      r := match w case Done(_) => Done(v) case Failed(e, l, c) => Failed(e, l, c);
    }

    /** Takes the comma after an element, or stops in front of the closing bracket. */
    method Comma(close: string, error: Error) returns (r: Outcome<()>)
      requires Valid() && |close| == 1
      modifies this
      ensures Valid() && at >= old(at)
      ensures var u := SkipWhite(old(Left()));
              Agrees(r,
                if Peeks(u, ',') then Ok((), u[1..])
                else if Peeks(u, close[0]) then Ok((), u)
                else Err(error, u))
    {
      SkipBlanks();
      var c := Peek();
      if c == "," {
        c := GetChar();
      } else if c != close {
        return Failed(error, ln, col);
      }
      r := Done(());
    }

    method ObjectOf() returns (r: Outcome<Value>)
      requires Valid()
      modifies this
      ensures Valid() && at >= old(at) && Agrees(r, ReadObject(old(Left())))
      decreases |text| - at, 0
    {
      SkipBlanks();
      var c := GetChar();
      if c != "{" {
        return Failed(ExpectedBrace, ln, col);
      }
      var members := Members();
      r := match members case Done(m) => Done(Obj(m)) case Failed(e, l, k) => Failed(e, l, k);
    }

    method Members() returns (r: Outcome<seq<Member>>)
      requires Valid()
      modifies this
      ensures Valid() && at >= old(at) && Agrees(r, ReadMembers(old(Left()), []))
      decreases |text| - at, 2
    {
      var obj: seq<Member> := [];
      while true
        invariant Valid() && at >= old(at)
        invariant ReadMembers(Left(), obj) == ReadMembers(old(Left()), [])
        decreases |text| - at
      {
        SkipBlanks();
        var c := Peek();
        if c == "}" {
          c := GetChar();
          return Done(obj);
        }
        var key := KeyOf();
        if key.Failed? {
          return Failed(key.error, key.line, key.column);
        }
        var val := Read();
        if val.Failed? {
          return Failed(val.error, val.line, val.column);
        }
        obj := Put(obj, Member(key.value, val.value));
        var more := Comma("}", ExpectedCommaOrBrace);
        if more.Failed? {
          return Failed(more.error, more.line, more.column);
        }
      }
    }

    method Elements() returns (r: Outcome<seq<Value>>)
      requires Valid()
      modifies this
      ensures Valid() && at >= old(at) && Agrees(r, ReadElements(old(Left()), []))
      decreases |text| - at, 2
    {
      var arr: seq<Value> := [];
      while true
        invariant Valid() && at >= old(at)
        invariant ReadElements(Left(), arr) == ReadElements(old(Left()), [])
        decreases |text| - at
      {
        SkipBlanks();
        var c := Peek();
        if c == "]" {
          c := GetChar();
          return Done(arr);
        }
        var val := Read();
        if val.Failed? {
          return Failed(val.error, val.line, val.column);
        }
        arr := arr + [val.value];
        var more := Comma("]", ExpectedCommaOrBracket);
        if more.Failed? {
          return Failed(more.error, more.line, more.column);
        }
      }
    }

    method Read() returns (r: Outcome<Value>)
      requires Valid()
      modifies this
      ensures Valid() && at >= old(at) && Agrees(r, ReadValue(old(Left())))
      decreases |text| - at, 1
    {
      SkipBlanks();
      var c := Peek();
      if c == "{" {
        r := ObjectOf();
      } else if c == "[" {
        c := GetChar();
        var vals := Elements();
        r := match vals case Done(v) => Done(Arr(v)) case Failed(e, l, k) => Failed(e, l, k);
      } else if c == "\"" {
        var s := StrOf();
        r := match s case Done(v) => Done(Str(v)) case Failed(e, l, k) => Failed(e, l, k);
      } else if c == "t" {
        r := Constant("true", Bool(true), ExpectedBool);
      } else if c == "f" {
        r := Constant("false", Bool(false), ExpectedBool);
      } else if c == "n" {
        r := Constant("null", Null, ExpectedNull);
      } else if c != "" && IsDigit(c[0]) {
        r := NumberOf();
      } else {
        r := Failed(InvalidValue, ln, col);
      }
    }
  }

  /** json_reader::read. An error names the line and column at which the text was given up. */
  method Parse(text: string) returns (r: Outcome<Value>)
    ensures var p := ReadObject(text);
            && |p.rest| <= |text|
            && var taken := text[..|text| - |p.rest|];
            r == match p
              case Ok(v, _) => Done(v)
              case Err(e, _) => Failed(e, LineOf(taken), ColumnOf(taken))
  {
    var ls := new Lexer(text);
    r := ls.ObjectOf();
    assert ls.at == |text| - |ls.Left()|;
  }
}
