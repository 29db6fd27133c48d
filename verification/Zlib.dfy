/** The compression transformer: a printer and parser of doubly framed packets around deflate
    and inflate (the format of RFC 1950), which are left abstract. */
module Zlib {
  import opened Bytes
  import opened Options
  import opened Varint
  import opened Framing

  class Transformer {
    const threshold: int
    const deflate: seq<byte> -> seq<byte>
    const inflate: seq<byte> -> Option<seq<byte>>

    constructor (threshold: int, deflate: seq<byte> -> seq<byte>, inflate: seq<byte> -> Option<seq<byte>>)
      ensures this.threshold == threshold && this.deflate == deflate && this.inflate == inflate
    {
      this.threshold, this.deflate, this.inflate := threshold, deflate, inflate;
    }

    ghost predicate Inverse() {
      forall d :: inflate(deflate(d)) == Some(d)
    }

    /** The data length (zero when not compressed) and the data, as transform_out sends them. */
    function Payload(body: seq<byte>): seq<byte> {
      if |body| < threshold then [0] + body else Encode(|body|) + deflate(body)
    }

    /** What transform_in makes of one payload: a packet with a plain length prefix. */
    function Unwrap(payload: seq<byte>): Option<seq<byte>>
      requires Readable(payload)
    {
      var from := Terminator(payload) + 1;
      var dlen := Pattern(payload, 5, TWO32);
      if dlen == 0 then Some(Encode(|payload| - from) + payload[from..])
      else match inflate(payload[from..])
        case None => None
        case Some(d) => Some(Encode(dlen) + d)
    }

    /** A payload that starts with a whole data length and is short enough for int. */
    predicate Readable(payload: seq<byte>) {
      Terminator(payload) < 5 && Terminated(payload) && |payload| < TWO31
    }

    function UnwrapAll(payloads: seq<seq<byte>>): Option<seq<byte>>
      requires forall p :: p in payloads ==> Readable(p)
    {
      if payloads == [] then Some([])
      else match (Unwrap(payloads[0]), UnwrapAll(payloads[1..]))
        case (Some(first), Some(rest)) => Some(first + rest)
        case _ => None
    }

    function Payloads(bodies: seq<seq<byte>>): seq<seq<byte>> {
      seq(|bodies|, i requires 0 <= i < |bodies| => Payload(bodies[i]))
    }

    lemma UnwrapPayload(body: seq<byte>)
      requires Inverse() && threshold >= 1 && |body| < TWO31 && |Payload(body)| < TWO31
      ensures Readable(Payload(body)) && Unwrap(Payload(body)) == Some(Frame(body))
    {
      var p := Payload(body);
      if |body| < threshold {
        assert Terminator(p) == 0 && p[1..] == body;
        assert Encode(0) == [0];
        VarintRoundTrip(0, body);
      } else {
        VarintRoundTrip(|body|, deflate(body));
        assert p[|Encode(|body|)|..] == deflate(body);
      }
    }

    /** Whichever side of the threshold each packet is on, unwrapping what was sent gives the
        original packets. */
    lemma {:induction false} TransformRoundTrip(bodies: seq<seq<byte>>)
      requires Inverse() && threshold >= 1
      requires forall i :: 0 <= i < |bodies| ==> |bodies[i]| < TWO31 && |Payload(bodies[i])| < TWO31
      ensures forall p :: p in Payloads(bodies) ==> Readable(p)
      ensures UnwrapAll(Payloads(bodies)) == Some(Concat(Frames(bodies)))
    {
      if bodies != [] {
        var rest := bodies[1..];
        assert Payloads(bodies) == [Payload(bodies[0])] + Payloads(rest);
        assert Frames(bodies) == [Frame(bodies[0])] + Frames(rest);
        UnwrapPayload(bodies[0]);
        TransformRoundTrip(rest);
      }
    }

    /** What a receiver sees in a payload: below the threshold a data length of 0 and the packet as
        it is, from it on the packet's length and the deflated packet. */
    predicate Carries(payload: seq<byte>, body: seq<byte>) {
      Terminated(payload) && Terminator(payload) < 5 &&
      var length, data := Pattern(payload, 5, TWO32), payload[Terminator(payload) + 1..];
      if |body| < threshold then length == 0 && data == body
      else length == |body| && data == deflate(body)
    }

    lemma PayloadCarries(body: seq<byte>)
      requires |body| < TWO31
      ensures Carries(Payload(body), body)
      ensures threshold >= 1 ==> (Pattern(Payload(body), 5, TWO32) == 0 <==> |body| < threshold)
    {
      var n, data := if |body| < threshold then 0 else |body|, if |body| < threshold then body else deflate(body);
      assert Encode(0) == [0];
      VarintRoundTrip(n, data);
      assert Payload(body) == Encode(n) + data;
      assert Payload(body)[|Encode(n)|..] == data;
    }

    /** The bytes sent are the length of what follows and then such a payload. */
    predicate Sends(bytes: seq<byte>, body: seq<byte>) {
      && Terminated(bytes) && Terminator(bytes) < 5
      && Announced(bytes) == |bytes| && Carries(bytes[Terminator(bytes) + 1..], body)
    }

    lemma FrameSends(body: seq<byte>)
      requires |body| < TWO31 && |Payload(body)| < TWO31
      ensures Sends(Frame(Payload(body)), body)
    {
      var p := Payload(body);
      PayloadCarries(body);
      VarintRoundTrip(|p|, p);
      assert Frame(p)[|Encode(|p|)|..] == p;
    }

    /** Wraps one packet.  The packet must be a whole frame with a canonical length. */
    method TransformOut(data: seq<byte>, ghost body: seq<byte>) returns (out: array<byte>)
      requires data == Frame(body) && |body| < TWO31 && |Payload(body)| < TWO31
      ensures fresh(out) && out[..] == Frame(Payload(body))
      ensures Sends(out[..], body)
    {
      FrameSends(body);
      VarintRoundTrip(|body|, body);
      var dlen, dlenLen := ReadVarint(data);
      var rest := data[dlenLen..];
      assert rest == body;
      if dlen < threshold {
        var plen := |data| - dlenLen + 1;
        assert Encode(0) == [0];
        out := Assemble(plen, 0, rest);
      } else {
        var compressed := deflate(rest);
        var plen := |compressed| + dlenLen;
        out := Assemble(plen, dlen, compressed);
      }
    }

    /** prefix followed by what is still to come, if that can be unwrapped at all. */
    ghost function Join(prefix: seq<byte>, rest: Option<seq<byte>>): Option<seq<byte>> {
      if rest.Some? then Some(prefix + rest.value) else None
    }

    lemma JoinFirst(prefix: seq<byte>, payloads: seq<seq<byte>>, mid: seq<byte>)
      requires payloads != [] && forall p :: p in payloads ==> Readable(p)
      ensures Unwrap(payloads[0]) == Some(mid) ==>
        Join(prefix, UnwrapAll(payloads)) == Join(prefix + mid, UnwrapAll(payloads[1..]))
      ensures Unwrap(payloads[0]) == None ==> UnwrapAll(payloads) == None
    {
      var rest := UnwrapAll(payloads[1..]);
      if rest.Some? {
        Reassociate(prefix, mid, rest.value);
      }
    }

    /** Undoes one frame at the front of rest, appending to out. */
    method UnwrapInto(out: array<byte>, outl: nat, rest: seq<byte>, ghost payload: seq<byte>, ghost more: seq<byte>)
      returns (ok: bool, nout: array<byte>, outl': nat, used: nat)
      requires Readable(payload) && rest == Frame(payload) + more
      requires outl <= out.Length && 4 * |rest| <= out.Length
      modifies out
      ensures used == |Frame(payload)| && ok == Unwrap(payload).Some?
      ensures nout == out || fresh(nout)
      ensures nout.Length >= out.Length && outl' <= nout.Length
      ensures ok ==> nout[..outl'] == old(out[..outl]) + Unwrap(payload).value
    {
      var plen, plenLen, dlen, dlenLen := ReadLengths(rest, payload, more);
      DataOf(payload, more, rest, dlenLen);
      var data := rest[plenLen + dlenLen..plenLen + plen];
      used := plen + plenLen;
      if dlen == 0 {
        nout, outl' := CopyPacket(out, outl, data);
        ok := true;
      } else {
        var inflated := inflate(data);
        ok, nout, outl' := inflated.Some?, out, outl;
        if ok {
          nout, outl' := InflatePacket(out, outl, Unsigned32(dlen), inflated.value);
        }
      }
    }

    method ReadLengths(rest: seq<byte>, ghost payload: seq<byte>, ghost more: seq<byte>)
      returns (plen: int, plenLen: nat, dlen: int, dlenLen: nat)
      requires Readable(payload) && rest == Frame(payload) + more
      ensures plen == |payload| && plenLen == |Encode(|payload|)|
      ensures dlenLen == Terminator(payload) + 1 <= |payload|
      ensures -TWO31 <= dlen < TWO31 && Unsigned32(dlen) == Pattern(payload, 5, TWO32)
    {
      FrontOf(payload, more, rest);
      plen, plenLen := ReadVarint(rest);
      dlen, dlenLen := ReadVarint(rest[plenLen..]);
    }

    lemma DataOf(payload: seq<byte>, more: seq<byte>, rest: seq<byte>, skip: nat)
      requires rest == Frame(payload) + more && skip <= |payload|
      ensures var n := |Encode(|payload|)|;
        n + |payload| <= |rest| && rest[n + skip..n + |payload|] == payload[skip..]
    {
      assert rest == Encode(|payload|) + (payload + more);
    }

    /** What the two length reads of transform_in see at the front of a frame. */
    lemma FrontOf(payload: seq<byte>, more: seq<byte>, rest: seq<byte>)
      requires Readable(payload) && rest == Frame(payload) + more
      ensures Terminator(rest) < 5 && Terminator(rest) + 1 == |Encode(|payload|)| && Terminated(rest)
      ensures Signed32(Pattern(rest, 5, TWO32)) == |payload|
      ensures var tail := rest[|Encode(|payload|)|..];
        Terminated(tail) && Terminator(tail) == Terminator(payload)
        && Pattern(tail, 5, TWO32) == Pattern(payload, 5, TWO32)
        && tail[..|payload|] == payload
    {
      assert rest == Encode(|payload|) + (payload + more);
      VarintRoundTrip(|payload|, payload + more);
      assert rest[|Encode(|payload|)|..] == payload + more;
      SamePattern(payload, more);
      TerminatorIs(payload + more, Terminator(payload));
    }

    predicate AllReadable(payloads: seq<seq<byte>>) {
      forall p :: p in payloads ==> Readable(p)
    }

    /** What a stream of frames and an unfinished length prefix starts with. */
    lemma NextFrame(payloads: seq<seq<byte>>, tail: seq<byte>, rest: seq<byte>)
      requires AllReadable(payloads) && rest == Concat(Frames(payloads)) + tail && !Terminated(tail)
      ensures payloads == [] ==> !Terminated(rest)
      ensures payloads != [] ==>
        var more := Concat(Frames(payloads[1..])) + tail;
        && rest == Frame(payloads[0]) + more && rest[|Frame(payloads[0])|..] == more
        && Terminated(rest) && Terminator(rest) < 5
    {
      if payloads == [] {
        assert rest == tail;
      } else {
        var more := Concat(Frames(payloads[1..])) + tail;
        FramesFirst(payloads);
        assert rest == Frame(payloads[0]) + more;
        FrontOf(payloads[0], more, rest);
      }
    }

    /** Some frames are unwrapped into prefix, and left is what the rest of the input holds. */
    ghost predicate Midway(data: seq<byte>, payloads: seq<seq<byte>>, tail: seq<byte>,
                           left: seq<seq<byte>>, consumed: nat, prefix: seq<byte>)
      requires AllReadable(payloads)
    {
      && AllReadable(left) && !Terminated(tail)
      && consumed <= |data| && data[consumed..] == Concat(Frames(left)) + tail
      && UnwrapAll(payloads) == Join(prefix, UnwrapAll(left))
    }

    lemma MidwayAtFirst(data: seq<byte>, payloads: seq<seq<byte>>, tail: seq<byte>)
      requires AllReadable(payloads) && !Terminated(tail) && data == Concat(Frames(payloads)) + tail
      ensures Midway(data, payloads, tail, payloads, 0, [])
    {
      var r := UnwrapAll(payloads);
      if r.Some? { assert [] + r.value == r.value; }
    }

    lemma MidwayNext(data: seq<byte>, payloads: seq<seq<byte>>, tail: seq<byte>,
                     left: seq<seq<byte>>, consumed: nat, prefix: seq<byte>, used: nat, prefix': seq<byte>)
      requires AllReadable(payloads) && Midway(data, payloads, tail, left, consumed, prefix) && left != []
      requires used == |Frame(left[0])| && Unwrap(left[0]).Some? && prefix' == prefix + Unwrap(left[0]).value
      ensures Midway(data, payloads, tail, left[1..], consumed + used, prefix')
    {
      NextFrame(left, tail, data[consumed..]);
      Skipped(data, consumed, used);
      JoinFirst(prefix, left, Unwrap(left[0]).value);
    }

    lemma Skipped(data: seq<byte>, consumed: nat, used: nat)
      requires consumed + used <= |data|
      ensures data[consumed + used..] == data[consumed..][used..]
    {
    }

    lemma MidwayAtLast(data: seq<byte>, payloads: seq<seq<byte>>, tail: seq<byte>, consumed: nat, prefix: seq<byte>)
      requires AllReadable(payloads) && Midway(data, payloads, tail, [], consumed, prefix)
      ensures UnwrapAll(payloads) == Some(prefix) && consumed == |data| - |tail|
    {
      assert prefix + [] == prefix;
    }

    /** One round of transform_in; more tells whether another length prefix follows. */
    method UnwrapNext(data: seq<byte>, consumed: nat, out: array<byte>, outl: nat, ghost payloads: seq<seq<byte>>,
                      ghost tail: seq<byte>, ghost left: seq<seq<byte>>)
      returns (ok: bool, nout: array<byte>, outl': nat, consumed': nat, more: bool)
      requires outl <= out.Length && 4 * |data| <= out.Length && left != [] && AllReadable(payloads)
      requires Midway(data, payloads, tail, left, consumed, out[..outl])
      modifies out
      ensures nout == out || fresh(nout)
      ensures nout.Length >= out.Length && outl' <= nout.Length
      ensures !ok ==> UnwrapAll(payloads) == None
      ensures ok ==> Midway(data, payloads, tail, left[1..], consumed', nout[..outl']) && more == (left[1..] != [])
    {
      ghost var prefix := out[..outl];
      NextFrame(left, tail, data[consumed..]);
      var used;
      ok, nout, outl', used :=
        UnwrapInto(out, outl, data[consumed..], left[0], Concat(Frames(left[1..])) + tail);
      consumed', more := consumed, false;
      if ok {
        MidwayNext(data, payloads, tail, left, consumed, prefix, used, nout[..outl']);
        consumed' := consumed + used;
        NextFrame(left[1..], tail, data[consumed'..]);
        var got := GotVarint(data[consumed'..]);
        more := got != 0;
      } else {
        JoinFirst(prefix, left, []);
      }
    }

    /** Unwraps a concatenation of whole frames, all of it, into one buffer.  What follows them may
        be the beginning of a length prefix, which is left alone. */
    method TransformIn(data: seq<byte>, ghost payloads: seq<seq<byte>>, ghost tail: seq<byte>)
      returns (ok: bool, outp: seq<byte>, consumed: nat)
      requires payloads != [] && AllReadable(payloads)
      requires data == Concat(Frames(payloads)) + tail && !Terminated(tail)
      ensures ok == UnwrapAll(payloads).Some?
      ensures ok ==> outp == UnwrapAll(payloads).value && consumed == |data| - |tail|
    {
      var out := new byte[4 * |data|](_ => 0);
      var outl: nat := 0;
      consumed := 0;
      assert out[..0] == [];
      MidwayAtFirst(data, payloads, tail);
      ghost var left := payloads;
      var more := true;
      while more
        invariant more == (left != []) && fresh(out) && outl <= out.Length && 4 * |data| <= out.Length
        invariant Midway(data, payloads, tail, left, consumed, out[..outl])
        decreases |left|
      {
        ok, out, outl, consumed, more := UnwrapNext(data, consumed, out, outl, payloads, tail, left);
        if !ok {
          return false, [], consumed;
        }
        left := left[1..];
      }
      ok, outp := true, out[..outl];
      MidwayAtLast(data, payloads, tail, consumed, outp);
    }

    /** Any list of packets sent through transform_out and received through transform_in in one
        piece comes out as it was, whichever side of the threshold each packet is on. */
    method Exchange(bodies: seq<seq<byte>>) returns (ok: bool, received: seq<byte>)
      requires Inverse() && threshold >= 1 && bodies != []
      requires forall i :: 0 <= i < |bodies| ==> |bodies[i]| < TWO31 && |Payload(bodies[i])| < TWO31
      ensures ok && received == Concat(Frames(bodies))
    {
      var stream: seq<byte> := [];
      for i := 0 to |bodies|
        invariant stream == Concat(Frames(Payloads(bodies[..i])))
      {
        var frame := TransformOut(Frame(bodies[i]), bodies[i]);
        OneMore(bodies, i);
        ConcatSnoc(Frames(Payloads(bodies[..i])), frame[..]);
        stream := stream + frame[..];
      }
      assert bodies[..|bodies|] == bodies && stream + [] == stream;
      TransformRoundTrip(bodies);
      var consumed;
      ok, received, consumed := TransformIn(stream, Payloads(bodies), []);
    }

    lemma OneMore(bodies: seq<seq<byte>>, i: nat)
      requires i < |bodies|
      ensures Frames(Payloads(bodies[..i + 1])) == Frames(Payloads(bodies[..i])) + [Frame(Payload(bodies[i]))]
    {
    }

    /** A length prefix and as many bytes as it announces. */
    predicate WholeFrame(data: seq<byte>) {
      Terminated(data) && Terminator(data) < 5 && Terminator(data) < Announced(data) <= |data|
    }

    /** The length of the packet is negative, or makes its sum with that of the prefix overflow. */
    predicate BadLength(data: seq<byte>) {
      Terminated(data) && Terminator(data) < 5 && (Announced(data) <= Terminator(data) || Announced(data) >= TWO31)
    }

    /** The sum that the size of the input is compared with. */
    function Wanted(data: seq<byte>, unset: int): int {
      if Terminator(data) < 5 then Announced(data) else Signed32(Pattern(data, 5, TWO32)) + unset
    }

    /** Whether a whole frame is at the front: 1 yes, 0 not yet, -1 never; but 1 also, with any
        number of bytes, when the length is bad.  For a prefix of six bytes the source adds a
        variable that it never set, whatever that holds. */
    method InEnough(data: seq<byte>, unset: int) returns (r: int)
      requires |data| < TWO32 && -TWO31 <= unset < TWO31
      ensures r == 0 || r == 1 || r == -1
      ensures r == -1 <==> Terminated(data) && Terminator(data) > 5
      ensures r == 1 <==> Terminated(data) && Terminator(data) <= 5 && Wrap(|data|) >= Wrap(Wanted(data, unset))
      ensures |data| < TWO31 && Terminator(data) < 5 ==> (r == 1 <==> WholeFrame(data) || BadLength(data))
      ensures |data| < TWO31 && Terminator(data) < 5 ==> ((r == 1 <==> WholeFrame(data)) <==> !BadLength(data))
    {
      var got := GotVarint(data);
      if got != 1 {
        return got;
      }
      var plen, plenLen := ReadVarint(data);
      r := if Wrap(|data|) >= Wrap(plen + if plenLen == 0 then unset else plenLen) then 1 else 0;
    }

    /** Five bytes that announce 2^31 + 4 are taken for a whole frame. */
    method InEnoughExample() returns (r: int)
      ensures r == 1 && !WholeFrame([255, 255, 255, 255, 7])
    {
      LongestPrefix();
      r := InEnough([255, 255, 255, 255, 7], 0);
    }
  }

  /** Allocates and fills a frame: packet length, data length, data. */
  method Assemble(plen: nat, dlen: nat, data: seq<byte>) returns (out: array<byte>)
    requires plen == |Encode(dlen) + data|
    ensures fresh(out) && out[..] == Frame(Encode(dlen) + data)
  {
    var plenLen := VarintSize(plen);
    out := new byte[plenLen + plen](_ => 0);
    var at := AppendVarint(out, 0, plen);
    at := AppendVarint(out, at, dlen);
    at := AppendBytes(out, at, data);
    assert out[..] == out[..at];
    assert out[..] == Encode(plen) + Encode(dlen) + data == Encode(plen) + (Encode(dlen) + data);
  }

  /** The doubling before a write: need more bytes must fit, and one doubling is enough. */
  method MakeRoom(out: array<byte>, outl: nat, need: nat) returns (nout: array<byte>)
    requires outl <= out.Length && outl + need <= 2 * out.Length
    ensures nout == out || fresh(nout)
    ensures nout.Length >= out.Length && outl + need <= nout.Length
    ensures nout[..outl] == old(out[..outl])
    ensures need < out.Length ==> outl + need < nout.Length
  {
    if outl + need < out.Length {
      return out;
    }
    nout := new byte[2 * out.Length](_ => 0);
    ghost var blank := nout[..];
    Blit(nout, 0, out[..]);
    StoredFront(blank, 0, out[..], nout[..]);
    assert nout[..outl] == nout[..][..out.Length][..outl];
  }

  method AppendVarint(out: array<byte>, outl: nat, val: nat) returns (outl': nat)
    requires outl + |Encode(val)| <= out.Length
    modifies out
    ensures outl' == outl + |Encode(val)| && out[..outl'] == old(out[..outl]) + Encode(val)
  {
    var n := WriteVarint(out, outl, val);
    outl' := outl + n;
    StoredFront(old(out[..]), outl, Encode(val), out[..]);
    assert out[..outl'] == out[..][..outl'];
  }

  method AppendBytes(out: array<byte>, outl: nat, b: seq<byte>) returns (outl': nat)
    requires outl + |b| <= out.Length
    modifies out
    ensures outl' == outl + |b| && out[..outl'] == old(out[..outl]) + b
  {
    Blit(out, outl, b);
    outl' := outl + |b|;
    StoredFront(old(out[..]), outl, b, out[..]);
    assert out[..outl'] == out[..][..outl'];
  }

  /** An uncompressed packet: its length and then its bytes. */
  method CopyPacket(out: array<byte>, outl: nat, data: seq<byte>) returns (nout: array<byte>, outl': nat)
    requires outl <= out.Length && |data| + 5 <= out.Length && |data| < TWO32
    modifies out
    ensures nout == out || fresh(nout)
    ensures nout.Length >= out.Length && outl' <= nout.Length
    ensures nout[..outl'] == old(out[..outl]) + (Encode(|data|) + data)
  {
    EncodeFits(|data|);
    nout := MakeRoom(out, outl, |data| + 5);
    outl' := AppendVarint(nout, outl, |data|);
    outl' := AppendBytes(nout, outl', data);
    assert old(out[..outl]) + Encode(|data|) + data == old(out[..outl]) + (Encode(|data|) + data);
  }

  method InflatePacket(out: array<byte>, outl: nat, dlen: nat, d: seq<byte>) returns (nout: array<byte>, outl': nat)
    requires outl <= out.Length && 5 < out.Length && dlen < TWO32
    modifies out
    ensures nout == out || fresh(nout)
    ensures nout.Length >= out.Length && outl' <= nout.Length
    ensures nout[..outl'] == old(out[..outl]) + (Encode(dlen) + d)
  {
    EncodeFits(dlen);
    nout := MakeRoom(out, outl, 5);
    outl' := AppendVarint(nout, outl, dlen);
    nout, outl' := InflateInto(nout, outl', d);
    assert old(out[..outl]) + Encode(dlen) + d == old(out[..outl]) + (Encode(dlen) + d);
  }

  /** The inflate loop: each round fills what room there is, and when the room runs out the
      buffer is doubled.  Whether the end is noticed in a round that exactly fills the buffer
      is up to zlib. */
  method InflateInto(out: array<byte>, outl: nat, d: seq<byte>) returns (nout: array<byte>, outl': nat)
    requires outl < out.Length
    modifies out
    ensures nout == out || fresh(nout)
    ensures outl' == outl + |d| <= nout.Length && nout.Length >= out.Length
    ensures nout[..outl'] == old(out[..outl]) + d
  {
    nout, outl' := out, outl;
    var w := 0;
    while true
      invariant nout == out || fresh(nout)
      invariant 0 <= w <= |d| && outl' == outl + w < nout.Length && nout.Length >= out.Length
      invariant nout[..outl'] == old(out[..outl]) + d[..w]
      decreases |d| - w, if w == |d| then nout.Length - outl' else 0
    {
      var room := nout.Length - outl';
      var n := if room < |d| - w then room else |d| - w;
      ghost var was := w;
      outl' := AppendBytes(nout, outl', d[w..w + n]);
      w := w + n;
      assert d[..w] == d[..was] + d[was..w];
      var streamEnd: bool := w == |d|;
      if streamEnd && outl' == nout.Length {
        streamEnd := *;
      }
      if streamEnd {
        return;
      }
      nout := MakeRoom(nout, outl', 1);
    }
  }
}
