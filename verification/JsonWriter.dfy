/** The printer: appends to a stream, keeping the nesting depth. */
module JsonWriter {
  import opened JsonFormat

  class Writer {
    const fmt: Format
    var strm: string
    var depth: nat

    constructor (fmt: Format)
      ensures this.fmt == fmt && strm == "" && depth == 0
    {
      this.fmt, strm, depth := fmt, "", 0;
    }

    method Encode(str: string)
      modifies this`strm
      ensures strm == old(strm) + EncodeStr(str)
    {
      strm := strm + "\"";
      ghost var start := strm;
      for i := 0 to |str|
        invariant strm + Escape(str[i..]) == start + Escape(str)
      {
        assert str[i..][1..] == str[i + 1..];
        assert strm + Escape(str[i..]) == strm + EscapeChar(str[i]) + Escape(str[i + 1..]);
        strm := strm + EscapeChar(str[i]);
      }
      assert strm == start + Escape(str);
      strm := strm + "\"";
    }

    method Open(inLine: bool, bracket: char)
      modifies this`strm
      ensures strm == old(strm) + Opening(fmt, inLine, depth, bracket)
    {
      if inLine {
        strm := strm + "\n";
        strm := strm + Spaces(fmt.indent * depth) + [bracket];
      } else {
        strm := strm + [bracket];
      }
      if fmt.elemPerLine {
        strm := strm + "\n";
      }
    }

    method Separate(last: bool, lineBreak: bool)
      modifies this`strm
      ensures strm == old(strm) + Separator(fmt, last, lineBreak)
    {
      if !last {
        strm := strm + ",";
        strm := strm + Spaces(fmt.commaSpaces);
        strm := strm + Repeat('\n', fmt.elemDist);
      }
      if lineBreak {
        strm := strm + "\n";
      }
    }

    method Key(key: string)
      modifies this`strm
      ensures strm == old(strm) + EncodeStr(key) + Colon(fmt)
    {
      Encode(key);
      ghost var named := strm;
      strm := strm + Spaces(fmt.colSpaceBefore);
      strm := strm + ":";
      strm := strm + Spaces(fmt.colSpaceAfter);
      Joined(named, Spaces(fmt.colSpaceBefore), ":", Spaces(fmt.colSpaceAfter));
    }

    method WriteObject(members: seq<Member>)
      requires Usable(fmt)
      modifies this
      ensures depth == old(depth)
      ensures strm == old(strm) + Print(fmt, Obj(members), depth)
      decreases members, 1
    {
      Open(fmt.braceInLine, '{');
      WriteMembers(members);
      strm := strm + (Spaces(fmt.indent * depth) + "}");
      Closed(old(strm), Opening(fmt, fmt.braceInLine, depth, '{'), PrintMembers(fmt, members, depth),
        Spaces(fmt.indent * depth), "}");
    }

    method WriteMembers(members: seq<Member>)
      requires Usable(fmt)
      modifies this
      ensures depth == old(depth)
      ensures strm == old(strm) + PrintMembers(fmt, members, depth)
      decreases members, 0
    {
      for i := 0 to |members|
        invariant depth == old(depth)
        invariant strm + PrintMembers(fmt, members[i..], depth) == old(strm) + PrintMembers(fmt, members, depth)
      {
        ghost var before := strm;
        WriteMember(members[i], i == |members| - 1);
        MemberWritten(fmt, members, i, depth, before, strm);
      }
      assert strm + "" == strm;
    }

    method WriteArray(vals: seq<Value>)
      requires Usable(fmt)
      modifies this
      ensures depth == old(depth)
      ensures strm == old(strm) + Print(fmt, Arr(vals), depth)
      decreases vals, 1
    {
      Open(fmt.bracketInLine, '[');
      WriteElements(vals);
      strm := strm + (Spaces(fmt.indent * depth) + "]");
      Closed(old(strm), Opening(fmt, fmt.bracketInLine, depth, '['), PrintElements(fmt, vals, 0, depth),
        Spaces(fmt.indent * depth), "]");
    }

    method WriteElements(vals: seq<Value>)
      requires Usable(fmt)
      modifies this
      ensures depth == old(depth)
      ensures strm == old(strm) + PrintElements(fmt, vals, 0, depth)
      decreases vals, 0
    {
      for i := 0 to |vals|
        invariant depth == old(depth)
        invariant strm + PrintElements(fmt, vals[i..], i, depth) == old(strm) + PrintElements(fmt, vals, 0, depth)
      {
        ghost var before := strm;
        WriteElement(vals[i], i, |vals|);
        ElementWritten(fmt, vals, i, depth, before, strm);
      }
      assert strm + "" == strm;
    }

    method WriteMember(m: Member, last: bool)
      requires Usable(fmt)
      modifies this
      ensures depth == old(depth)
      ensures strm == old(strm) + PrintMember(fmt, m, last, depth)
      decreases m, 3
    {
      if fmt.indent != 0 {
        strm := strm + Spaces(fmt.indent * (depth + 1));
      }
      assert strm == old(strm) + Spaces(fmt.indent * (depth + 1));
      Key(m.key);
      Nested(m.val);
      Separate(last, fmt.elemPerLine);
      Appended(old(strm), Spaces(fmt.indent * (depth + 1)), EncodeStr(m.key), Colon(fmt),
        Print(fmt, m.val, depth + 1), Separator(fmt, last, fmt.elemPerLine));
    }

    method WriteElement(v: Value, i: nat, count: nat)
      requires Usable(fmt) && i < count
      modifies this
      ensures depth == old(depth)
      ensures strm == old(strm) + PrintElement(fmt, v, count - i, i, depth)
      decreases v, 3
    {
      StartLine(i);
      Nested(v);
      Separate(i == count - 1, fmt.elemPerLine && (i == count - 1 || (i + 1) % fmt.elemsPerLine == 0));
      Joined(old(strm), Lead(fmt, i, depth), Print(fmt, v, depth + 1), After(fmt, count - i, i));
    }

    method StartLine(i: nat)
      requires Usable(fmt)
      modifies this`strm
      ensures strm == old(strm) + Lead(fmt, i, depth)
    {
      if fmt.indent != 0 && i % fmt.elemsPerLine == 0 {
        strm := strm + Spaces(fmt.indent * (depth + 1));
      }
    }

    /** A value one level deeper. */
    method Nested(v: Value)
      requires Usable(fmt)
      modifies this
      ensures depth == old(depth)
      ensures strm == old(strm) + Print(fmt, v, depth + 1)
      decreases v, 2
    {
      depth := depth + 1;
      WriteValue(v);
      depth := depth - 1;
    }

    method WriteValue(v: Value)
      requires Usable(fmt)
      modifies this
      ensures depth == old(depth)
      ensures strm == old(strm) + Print(fmt, v, depth)
      decreases v, 1
    {
      match v
      case Null => strm := strm + "null";
      case Bool(b) => strm := strm + if b then "true" else "false";
      case Num(num) => strm := strm + if num.Whole? then Digits(num.n) else num.chars;
      case Str(s) => Encode(s);
      case Arr(vals) => WriteArray(vals);
      case Obj(members) => WriteObject(members);
    }
  }

  /** json_writer::write. */
  method Write(fmt: Format, members: seq<Member>) returns (text: string)
    requires Usable(fmt)
    ensures text == Print(fmt, Obj(members), 0)
  {
    var w := new Writer(fmt);
    w.WriteObject(members);
    text := w.strm;
    assert "" + Print(fmt, Obj(members), 0) == Print(fmt, Obj(members), 0);
  }

  lemma ElementWritten(f: Format, vals: seq<Value>, i: nat, depth: nat, s0: string, s1: string)
    requires i < |vals| && s1 == s0 + PrintElement(f, vals[i], |vals| - i, i, depth)
    ensures s1 + PrintElements(f, vals[i + 1..], i + 1, depth) == s0 + PrintElements(f, vals[i..], i, depth)
  {
    assert vals[i..][1..] == vals[i + 1..];
    Joined(s0, PrintElement(f, vals[i], |vals| - i, i, depth), PrintElements(f, vals[i + 1..], i + 1, depth), "");
  }

  lemma MemberWritten(f: Format, members: seq<Member>, i: nat, depth: nat, s0: string, s1: string)
    requires i < |members| && s1 == s0 + PrintMember(f, members[i], i == |members| - 1, depth)
    ensures s1 + PrintMembers(f, members[i + 1..], depth) == s0 + PrintMembers(f, members[i..], depth)
  {
    assert members[i..][1..] == members[i + 1..];
    Joined(s0, PrintMember(f, members[i], i == |members| - 1, depth), PrintMembers(f, members[i + 1..], depth), "");
  }

  lemma Joined(s: string, a: string, b: string, c: string)
    ensures s + a + b + c == s + (a + b + c)
    ensures s + a + b == s + (a + b)
  {
  }

  lemma Closed(s: string, a: string, b: string, c: string, d: string)
    ensures s + a + b + (c + d) == s + (a + b + c + d)
  {
  }

  lemma Appended(s: string, a: string, b: string, c: string, d: string, e: string)
    ensures s + a + b + c + d + e == s + (a + b + c + d + e)
  {
  }
}
