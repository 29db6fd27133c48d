/** Byte strings and the arrays they are written into. */
module Bytes {

  type byte = b: nat | b < 256

  const TWO16 := 0x1_0000
  const TWO31 := 0x8000_0000
  const TWO32 := 0x1_0000_0000
  const TWO64 := 0x1_0000_0000_0000_0000

  lemma Reassociate(a: seq<byte>, b: seq<byte>, c: seq<byte>)
    ensures a + b + c == a + (b + c)
  {
  }

  /** s with b written over it from pos on. */
  function Overwrite(s: seq<byte>, pos: nat, b: seq<byte>): seq<byte>
    requires pos <= |s|
  {
    s[..pos] + b + if pos + |b| <= |s| then s[pos + |b|..] else []
  }

  /** Writing over exactly the bytes in front of a body. */
  lemma OverwriteFront(s: seq<byte>, front: seq<byte>, body: seq<byte>)
    requires |front| <= |s| && s[|front|..] == body
    ensures Overwrite(s, 0, front) == front + body
  {
  }

  /** after is before with b written over it at position at, nothing past the end being touched. */
  ghost predicate StoredAt(before: seq<byte>, at: nat, b: seq<byte>, after: seq<byte>) {
    at + |b| <= |before| && after == before[..at] + b + before[at + |b|..]
  }

  lemma NothingStored(before: seq<byte>, at: nat)
    requires at <= |before|
    ensures StoredAt(before, at, [], before)
  {
  }

  lemma StoredFront(before: seq<byte>, at: nat, b: seq<byte>, after: seq<byte>)
    requires StoredAt(before, at, b, after)
    ensures after[..at + |b|] == before[..at] + b
  {
  }

  /** The store seen through the window of len bytes at lo. */
  lemma WindowStored(before: seq<byte>, after: seq<byte>, lo: nat, pos: nat, b: seq<byte>, len: nat)
    requires pos <= len && lo + len <= |before| && StoredAt(before, lo + pos, b, after)
    ensures var len' := if pos + |b| > len then pos + |b| else len;
      lo + len' <= |after| && after[lo..lo + len'] == Overwrite(before[lo..lo + len], pos, b)
  {
    var w := before[lo..lo + len];
    assert w[..pos] == before[lo..lo + pos];
    if pos + |b| <= len {
      assert w[pos + |b|..] == before[lo + pos + |b|..lo + len];
    }
  }

  /** memcpy into an array. */
  method Blit(a: array<byte>, at: nat, bytes: seq<byte>)
    requires at + |bytes| <= a.Length
    modifies a
    ensures StoredAt(old(a[..]), at, bytes, a[..])
  {
    forall i | at <= i < at + |bytes| {
      a[i] := bytes[i - at];
    }
  }
}
