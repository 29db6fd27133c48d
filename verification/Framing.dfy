/** Length-prefixed packets: the delimiter that finds their ends and the reassembly loop of
    connection::on_read, which must not care how the stream was cut into reads. */
module Framing {
  import opened Bytes
  import opened Varint

  const READ_BUFFER_SIZE := 512

  /** What mc17_packet_delimiter::remaining returns: how many more bytes the packet that
      starts with s needs, or a negative number when it can never be completed, in int
      arithmetic. */
  function Remaining(s: seq<byte>): int {
    var i := Terminator(s);
    if i >= 5 then -1
    else if i == |s| then 1
    else Wrap(Signed32(Pattern(s, 5, TWO32)) + i + 1 - |s|)
  }

  method RemainingBytes(arr: array<byte>, got: nat) returns (rem: int)
    requires got <= arr.Length
    ensures rem == Remaining(arr[..got])
  {
    ghost var s := arr[..got];
    var i := 0;
    var gotLen := false;
    while i < got
      invariant 0 <= i <= got && !gotLen
      invariant forall j :: 0 <= j < i ==> arr[j] >= 128
    {
      if arr[i] < 128 {
        gotLen := true;
        break;
      }
      i := i + 1;
    }
    if gotLen {
      TerminatorIs(s, i);
    } else {
      assert Terminator(s) == got;
    }
    if i >= 5 {
      return -1;
    } else if !gotLen {
      return 1;
    }
    var len, _ := ReadVarint(arr[..got]);
    rem := Wrap(len + i + 1 - got);
  }

  function Frame(body: seq<byte>): seq<byte> {
    Encode(|body|) + body
  }

  /** Before its last length byte a frame needs one more byte at least. */
  lemma RemainingOfLength(body: seq<byte>, k: nat)
    requires |body| < TWO31 && k < |Encode(|body|)|
    ensures Remaining(Frame(body)[..k]) == 1
  {
    var e := Encode(|body|);
    EncodeFits(|body|);
    DecodeEncode(|body|, []);
    assert e + [] == e;
    assert Frame(body)[..k] == e[..k];
    CutBeforeEnd(e, k);
  }

  lemma CutBeforeEnd(e: seq<byte>, k: nat)
    requires k <= Terminator(e) && k < 5
    ensures Remaining(e[..k]) == if k < |e| then 1 else Remaining(e)
  {
    assert Terminator(e[..k]) == k;
    if k == |e| { assert e[..k] == e; }
  }

  lemma RemainingOfBody(n: nat, part: seq<byte>)
    requires n < TWO31 && |part| <= n
    ensures Remaining(Encode(n) + part) == n - |part|
  {
    VarintRoundTrip(n, part);
  }

  /** Positive on every proper prefix of a frame, zero on the frame. */
  lemma RemainingOfFrame(body: seq<byte>, k: nat)
    requires |body| < TWO31 && k <= |Frame(body)|
    ensures Remaining(Frame(body)[..k]) ==
      if k < |Encode(|body|)| then 1 else |Frame(body)| - k
  {
    if k < |Encode(|body|)| {
      RemainingOfLength(body, k);
    } else {
      var n := k - |Encode(|body|)|;
      PrefixOf(Encode(|body|), body, n);
      RemainingOfBody(|body|, body[..n]);
    }
  }

  lemma PrefixOf(a: seq<byte>, b: seq<byte>, n: nat)
    requires n <= |b|
    ensures (a + b)[..|a| + n] == a + b[..n]
  {
  }

  // ---------------------------------------------------------------- reassembly

  /** Closing: disconnection was asked for.  Overrun: the loop was about to write past the end of
      its buffer, after which nothing is modelled. */
  datatype Status = Open | Closing | Overrun

  /** The partial packet, the transformed bytes not yet looked at, and what was passed on.  After
      an overrun the partial packet holds all that would have been collected in it. */
  datatype Reader = Reader(rbuf: seq<byte>, ftb: seq<byte>, packets: seq<seq<byte>>, status: Status)

  function Deliver(p: seq<byte>, r: Reader): Reader {
    r.(packets := [p] + r.packets)
  }

  function Min(a: int, b: int): int { if a < b then a else b }

  /** The size check of the loop, in int arithmetic: a sum of 2^31 or more comes out negative. */
  predicate PassesCheck(rbuf: seq<byte>) {
    Wrap(|rbuf| + Remaining(rbuf)) <= READ_BUFFER_SIZE
  }

  /** The reassembly loop run to its end. */
  function Drive(rbuf: seq<byte>, ftb: seq<byte>): Reader
    decreases |ftb|, |rbuf|
  {
    var rem := Remaining(rbuf);
    if rem == 0 then Deliver(rbuf, Drive([], ftb))
    else if rem < 0 || !PassesCheck(rbuf) then Reader(rbuf, ftb, [], Closing)
    else if ftb == [] then Reader(rbuf, [], [], Open)
    else
      var n := Min(rem, |ftb|);
      if |rbuf| + n > READ_BUFFER_SIZE then Reader(rbuf + ftb, [], [], Overrun)
      else Drive(rbuf + ftb[..n], ftb[n..])
  }

  function Concat(packets: seq<seq<byte>>): seq<byte> {
    if packets == [] then [] else packets[0] + Concat(packets[1..])
  }

  /** Every byte a reader has been given. */
  function Total(r: Reader): seq<byte> {
    Concat(r.packets) + r.rbuf + r.ftb
  }

  lemma DeliverTotal(p: seq<byte>, r: Reader)
    ensures Total(Deliver(p, r)) == p + Total(r)
  {
    assert ([p] + r.packets)[1..] == r.packets;
    assert p + Concat(r.packets) + r.rbuf + r.ftb == p + (Concat(r.packets) + r.rbuf + r.ftb);
  }

  lemma Moved(rbuf: seq<byte>, ftb: seq<byte>, n: nat)
    requires n <= |ftb|
    ensures rbuf + ftb[..n] + ftb[n..] == rbuf + ftb
  {
  }

  /** Nothing is lost, duplicated or reordered, and the partial packet fits its buffer as long as
      the loop has not run past it. */
  lemma {:induction false} DriveConserves(rbuf: seq<byte>, ftb: seq<byte>)
    requires |rbuf| <= READ_BUFFER_SIZE
    ensures Total(Drive(rbuf, ftb)) == rbuf + ftb
    ensures |Drive(rbuf, ftb).rbuf| <= READ_BUFFER_SIZE <==> Drive(rbuf, ftb).status != Overrun
    ensures Drive(rbuf, ftb).status != Closing ==> Drive(rbuf, ftb).ftb == []
    decreases |ftb|, |rbuf|
  {
    var rem := Remaining(rbuf);
    if rem == 0 {
      DriveConserves([], ftb);
      DeliverTotal(rbuf, Drive([], ftb));
      assert [] + ftb == ftb;
    } else if rem < 0 || !PassesCheck(rbuf) || ftb == [] {
      TotalOfNone(rbuf, ftb, Drive(rbuf, ftb).status);
    } else {
      var n := Min(rem, |ftb|);
      if |rbuf| + n > READ_BUFFER_SIZE {
        TotalOfNone(rbuf + ftb, [], Overrun);
        assert rbuf + ftb + [] == rbuf + ftb;
      } else {
        DriveConserves(rbuf + ftb[..n], ftb[n..]);
        ReadStep(rbuf, ftb, n, rbuf + ftb[..n], ftb[n..]);
        Moved(rbuf, ftb, n);
      }
    }
  }

  lemma TotalOfNone(rbuf: seq<byte>, ftb: seq<byte>, status: Status)
    ensures Total(Reader(rbuf, ftb, [], status)) == rbuf + ftb
  {
    assert [] + rbuf == rbuf;
  }

  /** Bytes short of the end of a packet lower what remains by as much. */
  lemma RemainingPartial(rbuf: seq<byte>, x: seq<byte>)
    requires 0 <= |x| < Remaining(rbuf)
    ensures Remaining(rbuf + x) == Remaining(rbuf) - |x|
  {
    if x == [] {
      assert rbuf + x == rbuf;
    } else {
      assert Terminated(rbuf);
      LaterRemaining(rbuf, x);
    }
  }

  /** Once the length is known, each byte more is one less to come. */
  lemma LaterRemaining(rbuf: seq<byte>, x: seq<byte>)
    requires Terminated(rbuf) && Terminator(rbuf) < 5 && |x| <= Remaining(rbuf)
    ensures Remaining(rbuf + x) == Remaining(rbuf) - |x|
  {
    TerminatorIs(rbuf + x, Terminator(rbuf));
    SamePattern(rbuf, x);
  }

  lemma SamePattern(s: seq<byte>, x: seq<byte>)
    requires Terminator(s) < |s| && Terminator(s) < 5
    ensures Pattern(s + x, 5, TWO32) == Pattern(s, 5, TWO32)
  {
    var i := Terminator(s);
    TerminatorIs(s + x, i);
    LastDigit(s, i, 5);
    LastDigit(s + x, i, 5);
    assert (s + x)[..i + 1] == s[..i + 1];
  }

  /** Going on from where a reader stopped once b has arrived. */
  function Resume(r: Reader, b: seq<byte>): Reader {
    match r.status
    case Closing => r.(ftb := r.ftb + b)
    case Overrun => r.(rbuf := r.rbuf + b)
    case Open => var d := Drive(r.rbuf, b); d.(packets := r.packets + d.packets)
  }

  lemma ResumeDelivered(p: seq<byte>, r: Reader, b: seq<byte>)
    ensures Resume(Deliver(p, r), b) == Deliver(p, Resume(r, b))
  {
    var d := Drive(r.rbuf, b);
    assert [p] + r.packets + d.packets == [p] + (r.packets + d.packets);
  }

  // The four ways in which a round of the loop can be its last for a packet.

  lemma Held(p: seq<byte>)
    requires Remaining(p) > 0 && PassesCheck(p)
    ensures Drive(p, []) == Reader(p, [], [], Open)
  {
  }

  lemma Past(p: seq<byte>, rest: seq<byte>)
    requires Remaining(p) > 0 && PassesCheck(p) && |p| <= READ_BUFFER_SIZE
    requires |p| + Min(Remaining(p), |rest|) > READ_BUFFER_SIZE
    ensures Drive(p, rest) == Reader(p + rest, [], [], Overrun)
  {
  }

  lemma Turned(p: seq<byte>, rest: seq<byte>)
    requires Remaining(p) < 0 || (Remaining(p) > 0 && !PassesCheck(p))
    ensures Drive(p, rest) == Reader(p, rest, [], Closing)
  {
  }

  lemma Done(p: seq<byte>, rest: seq<byte>)
    requires Remaining(p) == 0
    ensures Drive(p, rest) == Deliver(p, Drive([], rest))
  {
  }

  /** Driving on after more bytes arrived is driving once over all of them. */
  lemma {:induction false} DriveAppend(rbuf: seq<byte>, a: seq<byte>, b: seq<byte>)
    ensures Drive(rbuf, a + b) == Resume(Drive(rbuf, a), b)
    decreases |a|, |rbuf|
  {
    var rem := Remaining(rbuf);
    if rem == 0 {
      DriveAppend([], a, b);
      ResumeDelivered(rbuf, Drive([], a), b);
    } else if rem > 0 && PassesCheck(rbuf) {
      if a == [] {
        assert a + b == b;
        NoneFirst(Drive(rbuf, b));
      } else if |rbuf| + Min(rem, |a|) > READ_BUFFER_SIZE {
        assert rbuf + (a + b) == rbuf + a + b;
      } else if |a| < rem {
        ShortRead(rbuf, a, b);
        NoneFirst(Drive(rbuf + a, b));
      } else {
        assert (a + b)[..rem] == a[..rem] && (a + b)[rem..] == a[rem..] + b;
        ReadStep(rbuf, a, rem, rbuf + a[..rem], a[rem..]);
        ReadStep(rbuf, a + b, rem, rbuf + a[..rem], a[rem..] + b);
        DriveAppend(rbuf + a[..rem], a[rem..], b);
      }
    }
  }

  lemma NoneFirst(d: Reader)
    ensures d.(packets := [] + d.packets) == d
  {
    assert [] + d.packets == d.packets;
  }

  lemma ReadStep(rbuf: seq<byte>, ftb: seq<byte>, n: nat, rbuf': seq<byte>, ftb': seq<byte>)
    requires 0 < Remaining(rbuf) && PassesCheck(rbuf) && ftb != [] && |rbuf| + n <= READ_BUFFER_SIZE
    requires n == Min(Remaining(rbuf), |ftb|) && rbuf' == rbuf + ftb[..n] && ftb' == ftb[n..]
    ensures Drive(rbuf, ftb) == Drive(rbuf', ftb')
  {
  }

  lemma ShortSlices(rbuf: seq<byte>, a: seq<byte>, b: seq<byte>, n: nat)
    requires n <= |b|
    ensures rbuf + (a + b)[..|a| + n] == rbuf + a + b[..n] && (a + b)[|a| + n..] == b[n..]
  {
  }

  /** Bytes short of a packet's end are only collected. */
  lemma ShortRead(rbuf: seq<byte>, a: seq<byte>, b: seq<byte>)
    requires 0 < |a| < Remaining(rbuf) && PassesCheck(rbuf) && |rbuf| + |a| <= READ_BUFFER_SIZE
    ensures Drive(rbuf, a) == Reader(rbuf + a, [], [], Open)
    ensures Drive(rbuf, a + b) == Drive(rbuf + a, b)
  {
    RemainingPartial(rbuf, a);
    assert a[..|a|] == a && a[|a|..] == [];
    ReadStep(rbuf, a, |a|, rbuf + a, []);
    if b == [] {
      assert a + b == a;
    } else {
      ShortReadOn(rbuf, a, b);
    }
  }

  /** The check sees the same sum before and after. */
  lemma SameCheck(rbuf: seq<byte>, a: seq<byte>)
    requires Remaining(rbuf + a) == Remaining(rbuf) - |a|
    ensures PassesCheck(rbuf + a) == PassesCheck(rbuf)
  {
    assert |rbuf + a| == |rbuf| + |a|;
  }

  lemma ShortReadOn(rbuf: seq<byte>, a: seq<byte>, b: seq<byte>)
    requires 0 < |a| < Remaining(rbuf) && PassesCheck(rbuf) && |rbuf| + |a| <= READ_BUFFER_SIZE && b != []
    requires Remaining(rbuf + a) == Remaining(rbuf) - |a|
    ensures Drive(rbuf, a + b) == Drive(rbuf + a, b)
  {
    var n := Min(Remaining(rbuf) - |a|, |b|);
    SameCheck(rbuf, a);
    if |rbuf| + |a| + n > READ_BUFFER_SIZE {
      Past(rbuf, a + b);
      Past(rbuf + a, b);
      Reassociate(rbuf, a, b);
    } else {
      ShortSlices(rbuf, a, b, n);
      ReadStep(rbuf, a + b, |a| + n, rbuf + a + b[..n], b[n..]);
      ReadStep(rbuf + a, b, n, rbuf + a + b[..n], b[n..]);
    }
  }

  /** A reader that rejected its stream rejects whatever follows at the same packet. */
  lemma {:induction false} FailedStays(rbuf: seq<byte>, ftb: seq<byte>)
    requires Drive(rbuf, ftb).status == Closing
    ensures var r := Drive(rbuf, ftb); forall more :: Drive(r.rbuf, more) == Reader(r.rbuf, more, [], Closing)
    decreases |ftb|, |rbuf|
  {
    var rem := Remaining(rbuf);
    if rem == 0 {
      FailedStays([], ftb);
    } else if rem > 0 && PassesCheck(rbuf) {
      var n := Min(rem, |ftb|);
      FailedStays(rbuf + ftb[..n], ftb[n..]);
    }
  }

  /** One call of on_read; a call without input asks for disconnection and reads nothing. */
  function Feed(r: Reader, chunk: seq<byte>): Reader {
    if r.status == Overrun then r.(rbuf := r.rbuf + chunk)
    else if chunk == [] then r.(status := Closing)
    else After(r.packets, r.status, Drive(r.rbuf, r.ftb + chunk))
  }

  /** What a run of the loop adds to the packets and the status there were before. */
  function After(packets: seq<seq<byte>>, status: Status, d: Reader): Reader {
    Reader(d.rbuf, d.ftb, packets + d.packets, if d.status == Open then status else d.status)
  }

  function FeedAll(chunks: seq<seq<byte>>): Reader {
    if chunks == [] then Reader([], [], [], Open)
    else Feed(FeedAll(chunks[..|chunks| - 1]), chunks[|chunks| - 1])
  }

  lemma {:induction false} ConcatSnoc(chunks: seq<seq<byte>>, c: seq<byte>)
    ensures Concat(chunks + [c]) == Concat(chunks) + c
  {
    if chunks == [] {
      assert chunks + [c] == [c] && [c][1..] == [];
    } else {
      ConcatSnoc(chunks[1..], c);
      assert (chunks + [c])[1..] == chunks[1..] + [c];
      assert chunks[0] + (Concat(chunks[1..]) + c) == chunks[0] + Concat(chunks[1..]) + c;
    }
  }

  /** However the stream was cut into reads, the reader ends as after one read of it all:
      same packets, same partial buffer, the same packet rejected if one was, and past the end of
      its buffer if it ever would be. */
  lemma {:induction false} FragmentationIndependent(chunks: seq<seq<byte>>)
    requires forall i :: 0 <= i < |chunks| ==> chunks[i] != []
    ensures FeedAll(chunks) == Drive([], Concat(chunks))
    decreases |chunks|
  {
    if chunks != [] {
      var init, c := chunks[..|chunks| - 1], chunks[|chunks| - 1];
      var s := Concat(init);
      FragmentationIndependent(init);
      ConcatSnoc(init, c);
      assert chunks == init + [c];
      DriveAppend([], s, c);
      DriveConserves([], s);
      var r := Drive([], s);
      if r.status == Closing {
        FailedStays([], s);
        assert r.packets + [] == r.packets;
      } else if r.status == Open {
        assert r.ftb + c == c;
      }
    }
  }

  function NonEmpty(chunks: seq<seq<byte>>): seq<seq<byte>> {
    if chunks == [] then []
    else
      var c := chunks[|chunks| - 1];
      NonEmpty(chunks[..|chunks| - 1]) + if c == [] then [] else [c]
  }

  /** r is r', but that disconnection was asked for besides. */
  predicate SameBut(r: Reader, r': Reader, asked: bool) {
    r == r'.(status := if r'.status == Open && asked then Closing else r'.status)
  }

  lemma FeedSame(r: Reader, r': Reader, asked: bool, c: seq<byte>)
    requires SameBut(r, r', asked)
    ensures SameBut(Feed(r, c), if c == [] then r' else Feed(r', c), asked || c == [])
  {
    if c == [] { assert r.rbuf + [] == r.rbuf; }
  }

  lemma NonEmptySnoc(chunks: seq<seq<byte>>)
    requires chunks != []
    ensures var init, c := chunks[..|chunks| - 1], chunks[|chunks| - 1];
      && ([] in chunks <==> [] in init || c == [])
      && FeedAll(NonEmpty(chunks)) == if c == [] then FeedAll(NonEmpty(init)) else Feed(FeedAll(NonEmpty(init)), c)
  {
    var init, c := chunks[..|chunks| - 1], chunks[|chunks| - 1];
    if c != [] {
      assert NonEmpty(chunks) == NonEmpty(init) + [c];
      assert NonEmpty(chunks)[..|NonEmpty(init)|] == NonEmpty(init);
    } else {
      assert NonEmpty(chunks) == NonEmpty(init);
    }
  }

  lemma {:induction false} NonEmptyParts(chunks: seq<seq<byte>>)
    ensures forall i :: 0 <= i < |NonEmpty(chunks)| ==> NonEmpty(chunks)[i] != []
  {
    if chunks != [] { NonEmptyParts(chunks[..|chunks| - 1]); }
  }

  /** Reads without input ask for disconnection and otherwise change nothing. */
  lemma {:induction false} EmptyReads(chunks: seq<seq<byte>>)
    ensures SameBut(FeedAll(chunks), FeedAll(NonEmpty(chunks)), [] in chunks)
    decreases |chunks|
  {
    if chunks != [] {
      var init, c := chunks[..|chunks| - 1], chunks[|chunks| - 1];
      EmptyReads(init);
      NonEmptySnoc(chunks);
      FeedSame(FeedAll(init), FeedAll(NonEmpty(init)), [] in init, c);
    }
  }

  /** So over any reads at all the reader ends as after one read of the whole stream, with
      disconnection asked for besides if one of them was empty. */
  lemma AnyReads(chunks: seq<seq<byte>>)
    ensures var r := Drive([], Concat(NonEmpty(chunks)));
      FeedAll(chunks) == r.(status := if r.status == Open && [] in chunks then Closing else r.status)
  {
    EmptyReads(chunks);
    NonEmptyParts(chunks);
    FragmentationIndependent(NonEmpty(chunks));
  }

  // --------------------------------------------------------- an independent split

  /** The whole length of the packet at the front of s, its prefix included, as the number that
      the prefix announces. */
  function Announced(s: seq<byte>): int {
    Signed32(Pattern(s, 5, TWO32)) + Terminator(s) + 1
  }

  /** The stream split packet by packet, without a buffer being filled step by step. */
  function Split(s: seq<byte>): Reader {
    var i := Terminator(s);
    if i >= 5 then Reader(s[..5], s[5..], [], Closing)
    else if i == |s| then Reader(s, [], [], Open)
    else
      var size := Announced(s);
      if size <= i || READ_BUFFER_SIZE < size < TWO31 then Reader(s[..i + 1], s[i + 1..], [], Closing)
      else if size >= TWO31 then Reader(s, [], [], if |s| > READ_BUFFER_SIZE then Overrun else Open)
      else if |s| < size then Reader(s, [], [], Open)
      else Deliver(s[..size], Split(s[size..]))
  }

  lemma Slices(s: seq<byte>, k: nat, m: nat)
    requires k <= m <= |s|
    ensures s[..k] + s[k..][..m - k] == s[..m] && s[k..][m - k..] == s[m..]
  {
  }

  /** One round of the loop takes the partial packet from byte k of the stream to byte m. */
  lemma StreamStep(s: seq<byte>, k: nat, m: nat)
    requires k < m <= |s| && m <= READ_BUFFER_SIZE && PassesCheck(s[..k])
    requires m - k == Min(Remaining(s[..k]), |s| - k)
    ensures Drive(s[..k], s[k..]) == Drive(s[..m], s[m..])
  {
    Slices(s, k, m);
    ReadStep(s[..k], s[k..], m - k, s[..m], s[m..]);
  }

  /** A length prefix is collected byte by byte. */
  lemma {:induction false} PrefixCollected(s: seq<byte>, k: nat)
    requires k <= |s| && k <= 5 && k <= Terminator(s) + 1
    ensures Drive([], s) == Drive(s[..k], s[k..])
  {
    if k == 0 {
      assert s[..0] == [] && s[0..] == s;
    } else {
      PrefixCollected(s, k - 1);
      CutBeforeEnd(s, k - 1);
        StreamStep(s, k - 1, k);
    }
  }

  /** What is known once the prefix is there. */
  lemma PrefixRead(s: seq<byte>)
    requires Terminated(s) && Terminator(s) < 5
    ensures var i := Terminator(s); var p := s[..i + 1];
      && Terminated(p) && Terminator(p) == i && Announced(p) == Announced(s)
      && Remaining(p) == Announced(s) - (i + 1)
  {
    var i := Terminator(s);
    var p := s[..i + 1];
    TerminatorIs(p, i);
    assert s == p + s[i + 1..];
    SamePattern(p, s[i + 1..]);
  }

  lemma CutInTwo(s: seq<byte>, j: nat, k: nat)
    requires j <= k <= |s|
    ensures s[..k] == s[..j] + s[j..k]
  {
  }

  lemma RemainingLater(s: seq<byte>, k: nat)
    requires Terminated(s) && Terminator(s) < 5 && Terminator(s) + 1 <= k <= |s| && k <= Announced(s)
    ensures Remaining(s[..k]) == Announced(s) - k
  {
    var i := Terminator(s);
    PrefixRead(s);
    CutInTwo(s, i + 1, k);
    LaterRemaining(s[..i + 1], s[i + 1..k]);
  }

  /** With the packet partly in the buffer, what remains and whether the check lets it pass. */
  lemma CheckAt(s: seq<byte>, k: nat)
    requires Terminated(s) && Terminator(s) < 5 && Terminator(s) + 1 <= k <= |s| && k < Announced(s)
    ensures Remaining(s[..k]) == Announced(s) - k
    ensures PassesCheck(s[..k]) <==> Announced(s) <= READ_BUFFER_SIZE || Announced(s) >= TWO31
  {
    RemainingLater(s, k);
    assert |s[..k]| == k;
  }

  lemma Ends(s: seq<byte>)
    ensures s[..|s|] == s && s[|s|..] == []
  {
  }

  lemma PrefixAndRest(s: seq<byte>, k: nat)
    requires k <= |s|
    ensures s[..k] + s[k..] == s
  {
  }

  /** Once its prefix of k bytes is there, the packet is collected up to byte n. */
  lemma CollectedTo(s: seq<byte>, k: nat, n: nat, size: int)
    requires k <= n <= |s| && n <= READ_BUFFER_SIZE && n == Min(size, |s|)
    requires Drive([], s) == Drive(s[..k], s[k..])
    requires k < n ==> Remaining(s[..k]) == size - k && PassesCheck(s[..k])
    ensures Drive([], s) == Drive(s[..n], s[n..])
  {
    if k < n {
      StreamStep(s, k, n);
    }
  }

  /** A packet that passes the check and has not arrived whole is collected. */
  lemma Waits(s: seq<byte>, k: nat, size: int)
    requires k <= |s| < size && |s| <= READ_BUFFER_SIZE && Drive([], s) == Drive(s[..k], s[k..])
    requires k < |s| ==> Remaining(s[..k]) == size - k && PassesCheck(s[..k])
    requires Remaining(s) > 0 && PassesCheck(s)
    ensures Drive([], s) == Reader(s, [], [], Open)
  {
    CollectedTo(s, k, |s|, size);
    Ends(s);
    Held(s);
  }

  lemma PastTheEnd(s: seq<byte>, k: nat)
    requires k <= 5 && k <= |s| && |s| > READ_BUFFER_SIZE && Drive([], s) == Drive(s[..k], s[k..])
    requires Remaining(s[..k]) >= TWO31 - 5 && PassesCheck(s[..k])
    ensures Drive([], s) == Reader(s, [], [], Overrun)
  {
    PrefixAndRest(s, k);
    Past(s[..k], s[k..]);
  }

  lemma Whole(s: seq<byte>, k: nat, size: nat)
    requires k <= size <= |s| && size <= READ_BUFFER_SIZE && Drive([], s) == Drive(s[..k], s[k..])
    requires k < size ==> Remaining(s[..k]) == size - k && PassesCheck(s[..k])
    requires Remaining(s[..size]) == 0
    ensures Drive([], s) == Deliver(s[..size], Drive([], s[size..]))
  {
    CollectedTo(s, k, size, size);
    Done(s[..size], s[size..]);
  }

  /** What the loop does with a packet whose length is known. */
  lemma PacketDriven(s: seq<byte>)
    requires Terminated(s) && Terminator(s) < 5
    ensures var size := Announced(s);
      Drive([], s) ==
        if size <= Terminator(s) || READ_BUFFER_SIZE < size < TWO31 then
          Reader(s[..Terminator(s) + 1], s[Terminator(s) + 1..], [], Closing)
        else if size >= TWO31 && |s| > READ_BUFFER_SIZE then Reader(s, [], [], Overrun)
        else if |s| < size then Reader(s, [], [], Open)
        else Deliver(s[..size], Drive([], s[size..]))
  {
    var k, size := Terminator(s) + 1, Announced(s);
    PrefixCollected(s, k);
    if size <= Terminator(s) || READ_BUFFER_SIZE < size < TWO31 {
      Refused(s);
    } else if size >= TWO31 && |s| > READ_BUFFER_SIZE {
      CheckAt(s, k);
      PastTheEnd(s, k);
    } else if |s| < size {
      CheckAt(s, k);
      CheckAt(s, |s|);
      Ends(s);
      Waits(s, k, size);
    } else {
      if k < size { CheckAt(s, k); }
      RemainingLater(s, size);
      Whole(s, k, size);
    }
  }

  lemma Refused(s: seq<byte>)
    requires Terminated(s) && Terminator(s) < 5
    requires Announced(s) <= Terminator(s) || READ_BUFFER_SIZE < Announced(s) < TWO31
    ensures Drive([], s) == Reader(s[..Terminator(s) + 1], s[Terminator(s) + 1..], [], Closing)
  {
    var k := Terminator(s) + 1;
    PrefixCollected(s, k);
    PrefixRead(s);
    if Announced(s) > k { CheckAt(s, k); }
    Turned(s[..k], s[k..]);
  }

  lemma NoLength(s: seq<byte>)
    requires Terminator(s) == |s| < 5
    ensures Drive([], s) == Reader(s, [], [], Open)
  {
    PrefixCollected(s, |s|);
    Ends(s);
    Held(s);
  }

  lemma NoLengthInFive(s: seq<byte>)
    requires Terminator(s) >= 5
    ensures Drive([], s) == Reader(s[..5], s[5..], [], Closing)
  {
    PrefixCollected(s, 5);
    assert Terminator(s[..5]) == 5;
    Turned(s[..5], s[5..]);
  }

  /** The loop that fills its buffer step by step does what splitting the stream at once does. */
  lemma {:induction false} DriveIsSplit(s: seq<byte>)
    ensures Drive([], s) == Split(s)
    decreases |s|
  {
    var i := Terminator(s);
    if i >= 5 {
      NoLengthInFive(s);
    } else if i == |s| {
      NoLength(s);
    } else {
      var size := Announced(s);
      PacketDriven(s);
      if i < size <= READ_BUFFER_SIZE && size <= |s| {
        DriveIsSplit(s[size..]);
      }
    }
  }

  /** Behind whole packets that fit, the stream has a packet whose announced length is 2^31 or
      more, and more bytes from there on than the buffer has. */
  predicate Overlong(s: seq<byte>) {
    Terminated(s) && Terminator(s) < 5 &&
    var size := Announced(s);
    if size >= TWO31 then |s| > READ_BUFFER_SIZE
    else Terminator(s) < size <= READ_BUFFER_SIZE && size <= |s| && Overlong(s[size..])
  }

  lemma {:induction false} SplitOverruns(s: seq<byte>)
    ensures Split(s).status == Overrun <==> Overlong(s)
    decreases |s|
  {
    if Terminated(s) && Terminator(s) < 5 && Terminator(s) < Announced(s) <= READ_BUFFER_SIZE && Announced(s) <= |s| {
      SplitOverruns(s[Announced(s)..]);
    }
  }

  /** However a stream was cut into reads, the partial packet stays within its buffer if and only
      if the stream has no packet that is overlong in this sense. */
  lemma BufferBound(chunks: seq<seq<byte>>)
    requires forall i :: 0 <= i < |chunks| ==> chunks[i] != []
    ensures |FeedAll(chunks).rbuf| <= READ_BUFFER_SIZE <==> !Overlong(Concat(chunks))
  {
    var s := Concat(chunks);
    FragmentationIndependent(chunks);
    DriveConserves([], s);
    DriveIsSplit(s);
    SplitOverruns(s);
  }

  /** The prefix FF FF FF FF 07 announces 2^31 + 4 bytes in all, a sum that is negative in an int. */
  lemma OverlongExample(more: seq<byte>)
    requires |more| > READ_BUFFER_SIZE - 5
    ensures var p: seq<byte> := [255, 255, 255, 255, 7];
      && Remaining(p) == TWO31 - 1 && PassesCheck(p)
      && Overlong(p + more) && Drive([], p + more).status == Overrun
  {
    var p: seq<byte> := [255, 255, 255, 255, 7];
    LongestPrefix();
    TerminatorIs(p + more, 4);
    SamePattern(p, more);
    DriveIsSplit(p + more);
    SplitOverruns(p + more);
  }

  lemma LongestPrefix()
    ensures var p: seq<byte> := [255, 255, 255, 255, 7]; Terminator(p) == 4 && Pattern(p, 5, TWO32) == TWO31 - 1
  {
    var p: seq<byte> := [255, 255, 255, 255, 7];
    TerminatorIs(p, 4);
    assert p[..5] == p && p[1..] == [255, 255, 255, 7] && p[1..][1..] == [255, 255, 7];
    assert p[1..][1..][1..] == [255, 7] && p[1..][1..][1..][1..] == [7];
    assert Value([7]) == 7 && Value([255, 7]) == 127 + 128 * 7;
    SmallMod(TWO31 - 1, TWO32);
  }

  // -------------------------------------------------------- unique decodability

  function Frames(bodies: seq<seq<byte>>): seq<seq<byte>> {
    seq(|bodies|, i requires 0 <= i < |bodies| => Frame(bodies[i]))
  }

  /** Moving the bytes of a frame up to byte m from the stream to the partial packet. */
  lemma FrameMoves(f: seq<byte>, k: nat, m: nat, rest: seq<byte>)
    requires k <= m <= |f|
    ensures f[..k] + (f[k..] + rest)[..m - k] == f[..m] && (f[k..] + rest)[m - k..] == f[m..] + rest
  {
  }

  lemma FrameStep(f: seq<byte>, k: nat, m: nat, rest: seq<byte>)
    requires k < m <= |f| && m <= READ_BUFFER_SIZE && Remaining(f[..k]) == m - k
    ensures Drive(f[..k], f[k..] + rest) == Drive(f[..m], f[m..] + rest)
  {
    FrameMoves(f, k, m, rest);
    ReadStep(f[..k], f[k..] + rest, m - k, f[..m], f[m..] + rest);
  }

  lemma FrameDone(f: seq<byte>, rest: seq<byte>)
    requires Remaining(f[..|f|]) == 0
    ensures Drive(f[..|f|], f[|f|..] + rest) == Deliver(f, Drive([], rest))
  {
    assert f[..|f|] == f && f[|f|..] + rest == rest;
  }

  /** A frame that fits the buffer is passed on whole from any point inside it. */
  lemma DriveFrame(body: seq<byte>, k: nat, rest: seq<byte>)
    requires |body| < TWO31 && k <= |Frame(body)|
    requires |Frame(body)| <= READ_BUFFER_SIZE
    ensures Drive(Frame(body)[..k], Frame(body)[k..] + rest) == Deliver(Frame(body), Drive([], rest))
  {
    var f, m := Frame(body), |Encode(|body|)|;
    RemainingOfFrame(body, |f|);
    if k < m {
      EncodeFits(|body|);
      LengthBytes(body);
      PrefixDriven(f, k, m, rest);
      RemainingOfFrame(body, m);
      BodyDriven(f, m, rest);
    } else {
      RemainingOfFrame(body, k);
      BodyDriven(f, k, rest);
    }
  }

  lemma BodyDriven(f: seq<byte>, k: nat, rest: seq<byte>)
    requires k <= |f| <= READ_BUFFER_SIZE && Remaining(f[..k]) == |f| - k && Remaining(f[..|f|]) == 0
    ensures Drive(f[..k], f[k..] + rest) == Deliver(f, Drive([], rest))
  {
    if k < |f| { FrameStep(f, k, |f|, rest); }
    FrameDone(f, rest);
  }

  lemma LengthBytes(body: seq<byte>)
    requires |body| < TWO31
    ensures forall j :: 0 <= j < |Encode(|body|)| ==> Remaining(Frame(body)[..j]) == 1
  {
    forall j | 0 <= j < |Encode(|body|)| ensures Remaining(Frame(body)[..j]) == 1 {
      RemainingOfLength(body, j);
    }
  }

  /** The first m bytes of f are collected one by one as long as one more is asked for. */
  lemma {:induction false} PrefixDriven(f: seq<byte>, k: nat, m: nat, rest: seq<byte>)
    requires k <= m <= |f| && m <= 5 && forall j :: 0 <= j < m ==> Remaining(f[..j]) == 1
    ensures Drive(f[..k], f[k..] + rest) == Drive(f[..m], f[m..] + rest)
    decreases m - k
  {
    if k < m {
      FrameStep(f, k, k + 1, rest);
      PrefixDriven(f, k + 1, m, rest);
    }
  }

  /** At the end of its prefix a frame that does not fit is rejected, unless its length overflows
      the sum that is checked. */
  lemma Oversized(f: seq<byte>, k: nat, rest: seq<byte>)
    requires k <= 5 <= READ_BUFFER_SIZE < |f| < TWO32 && Remaining(f[..k]) == |f| - k > 0
    ensures Drive(f[..k], f[k..] + rest) ==
      if |f| < TWO31 then Reader(f[..k], f[k..] + rest, [], Closing)
      else Reader(f[..k] + (f[k..] + rest), [], [], Overrun)
  {
  }

  /** A larger frame is rejected if and only if it has less than 2^31 bytes. */
  lemma DriveOversized(body: seq<byte>, k: nat, rest: seq<byte>)
    requires |body| < TWO31 && k <= |Encode(|body|)|
    requires |Frame(body)| > READ_BUFFER_SIZE
    ensures Drive(Frame(body)[..k], Frame(body)[k..] + rest).packets == []
    ensures Drive(Frame(body)[..k], Frame(body)[k..] + rest).status ==
      if |Frame(body)| < TWO31 then Closing else Overrun
  {
    var f, m := Frame(body), |Encode(|body|)|;
    EncodeFits(|body|);
    LengthBytes(body);
    PrefixDriven(f, k, m, rest);
    RemainingOfFrame(body, m);
    Oversized(f, m, rest);
  }

  predicate Fits(body: seq<byte>) { |Frame(body)| <= READ_BUFFER_SIZE }

  /** The packets in front of the first that does not fit. */
  function Fitting(bodies: seq<seq<byte>>): seq<seq<byte>> {
    if bodies == [] || !Fits(bodies[0]) then [] else [bodies[0]] + Fitting(bodies[1..])
  }

  lemma FramesFirst(bodies: seq<seq<byte>>)
    requires bodies != []
    ensures Frames(bodies) == [Frame(bodies[0])] + Frames(bodies[1..])
    ensures Concat(Frames(bodies)) == Frame(bodies[0]) + Concat(Frames(bodies[1..]))
  {
    assert Frames(bodies) == [Frame(bodies[0])] + Frames(bodies[1..]);
    assert Frames(bodies)[1..] == Frames(bodies[1..]);
  }

  /** What the loop does with a frame. */
  function StatusOf(body: seq<byte>): Status {
    if Fits(body) then Open else if |Frame(body)| < TWO31 then Closing else Overrun
  }

  /** One frame at a time, whether it fits or not. */
  lemma DriveFirst(body: seq<byte>, rest: seq<byte>)
    requires |body| < TWO31
    ensures Fits(body) ==> Drive([], Frame(body) + rest) == Deliver(Frame(body), Drive([], rest))
    ensures !Fits(body) ==>
      Drive([], Frame(body) + rest).status == StatusOf(body) && Drive([], Frame(body) + rest).packets == []
  {
    assert Frame(body)[..0] == [] && Frame(body)[0..] == Frame(body);
    if Fits(body) { DriveFrame(body, 0, rest); } else { DriveOversized(body, 0, rest); }
  }

  /** A concatenation of frames yields exactly the frames in front of the first that does not
      fit the buffer, and ends there, as that frame's length says, if there is one. */
  lemma {:induction false} FramesUntilOversized(bodies: seq<seq<byte>>)
    requires forall i :: 0 <= i < |bodies| ==> |bodies[i]| < TWO31
    ensures var r := Drive([], Concat(Frames(bodies))); var n := |Fitting(bodies)|;
      && r.packets == Frames(Fitting(bodies))
      && n <= |bodies| && (Fitting(bodies) == bodies <==> n == |bodies|)
      && r.status == (if n == |bodies| then Open else StatusOf(bodies[n]))
      && (r.status == Open ==> r.rbuf == [] && r.ftb == [])
  {
    if bodies != [] {
      FramesFirst(bodies);
      DriveFirst(bodies[0], Concat(Frames(bodies[1..])));
      if Fits(bodies[0]) {
        FramesUntilOversized(bodies[1..]);
        FramesFirst(Fitting(bodies));
        assert Fitting(bodies)[1..] == Fitting(bodies[1..]);
        assert bodies == [bodies[0]] + bodies[1..];
        var n := |Fitting(bodies[1..])|;
        if n < |bodies[1..]| { assert bodies[1..][n] == bodies[n + 1]; }
      }
    }
  }

  lemma {:induction false} FittingAll(bodies: seq<seq<byte>>)
    ensures Fitting(bodies) == bodies <==> forall i :: 0 <= i < |bodies| ==> Fits(bodies[i])
  {
    if bodies != [] {
      FittingAll(bodies[1..]);
      assert bodies == [bodies[0]] + bodies[1..];
      if Fitting(bodies) == bodies { assert Fitting(bodies[1..]) == Fitting(bodies)[1..]; }
    }
  }

  /** A concatenation of frames is split back into exactly those frames if and only if each of
      them fits the buffer. */
  lemma FramesAreDecoded(bodies: seq<seq<byte>>)
    requires forall i :: 0 <= i < |bodies| ==> |bodies[i]| < TWO31
    ensures Drive([], Concat(Frames(bodies))) == Reader([], [], Frames(bodies), Open) <==>
      (forall i :: 0 <= i < |bodies| ==> |Frame(bodies[i])| <= 512)
  {
    FramesUntilOversized(bodies);
    FittingAll(bodies);
    assert (forall i :: 0 <= i < |bodies| ==> Fits(bodies[i])) <==>
      (forall i :: 0 <= i < |bodies| ==> |Frame(bodies[i])| <= 512);
  }
}
