/** The two protocols of a connection: reassembly of incoming packets and the queue of
    outgoing ones. */
module Connections {
  import opened Bytes
  import opened Varint
  import opened Framing

  /** Where the loop will end from here. */
  ghost function Finish(rbuf: seq<byte>, ftb: seq<byte>, packets: seq<seq<byte>>, status: Status): Reader {
    After(packets, status, Drive(rbuf, ftb))
  }

  lemma FinishRejects(rbuf: seq<byte>, ftb: seq<byte>, packets: seq<seq<byte>>, status: Status)
    requires Remaining(rbuf) < 0 || (Remaining(rbuf) > 0 && !PassesCheck(rbuf))
    ensures Finish(rbuf, ftb, packets, status) == Reader(rbuf, ftb, packets, Closing)
  {
  }

  lemma FinishDelivers(rbuf: seq<byte>, ftb: seq<byte>, packets: seq<seq<byte>>, status: Status)
    requires Remaining(rbuf) == 0
    ensures rbuf != []
    ensures Finish(rbuf, ftb, packets, status) == Finish([], ftb, packets + [rbuf], status)
  {
    var d := Drive([], ftb);
    assert packets + ([rbuf] + d.packets) == packets + [rbuf] + d.packets;
  }

  lemma FinishCollects(rbuf: seq<byte>, ftb: seq<byte>, packets: seq<seq<byte>>, status: Status, n: nat)
    requires 0 < Remaining(rbuf) && PassesCheck(rbuf)
    requires n == Min(Remaining(rbuf), |ftb|) && |rbuf| + n <= READ_BUFFER_SIZE
    ensures ftb == [] ==> rbuf + ftb[..n] == rbuf && ftb[n..] == []
    ensures Finish(rbuf, ftb, packets, status) == Finish(rbuf + ftb[..n], ftb[n..], packets, status)
    ensures ftb == [] ==> Drive(rbuf, []) == Reader(rbuf, [], [], Open)
  {
    if ftb == [] {
      assert rbuf + ftb[..n] == rbuf;
    }
  }

  lemma FinishOverruns(rbuf: seq<byte>, ftb: seq<byte>, packets: seq<seq<byte>>, status: Status, n: nat)
    requires 0 < Remaining(rbuf) && PassesCheck(rbuf) && |rbuf| <= READ_BUFFER_SIZE
    requires n == Min(Remaining(rbuf), |ftb|) && |rbuf| + n > READ_BUFFER_SIZE
    ensures Finish(rbuf, ftb, packets, status) == Reader(rbuf + ftb, [], packets, Overrun)
  {
  }

  lemma FinishIdle(rbuf: seq<byte>, packets: seq<seq<byte>>, status: Status)
    requires rbuf == [] || Drive(rbuf, []) == Reader(rbuf, [], [], Open)
    ensures Finish(rbuf, [], packets, status) == Reader(rbuf, [], packets, status)
  {
  }

  class Input {
    const rbuf: array<byte>
    var rbufLen: nat
    var ftb: seq<byte>
    var packets: seq<seq<byte>>   // handed to the connection's job sequence
    var disconnectReq: bool
    var overrun: bool             // stands for the write past rbuf, which ends what is modelled

    ghost predicate Valid()
      reads this
    {
      rbuf.Length == READ_BUFFER_SIZE && rbufLen <= READ_BUFFER_SIZE
    }

    ghost function View(): Reader
      requires Valid()
      reads this, rbuf
    {
      if overrun then Reader(rbuf[..rbufLen] + ftb, [], packets, Overrun)
      else Reader(rbuf[..rbufLen], ftb, packets, Asked())
    }

    ghost function Asked(): Status
      reads this
    {
      if disconnectReq then Closing else Open
    }

    constructor ()
      ensures Valid() && fresh(rbuf) && View() == FeedAll([])
    {
      rbuf := new byte[READ_BUFFER_SIZE](_ => 0);
      rbufLen, ftb, packets, disconnectReq, overrun := 0, [], [], false, false;
    }

    /** Moves n bytes from ftb to the partial packet. */
    method Collect(n: nat)
      requires Valid() && n <= |ftb| && rbufLen + n <= READ_BUFFER_SIZE
      modifies this`rbufLen, this`ftb, rbuf
      ensures Valid() && rbufLen == old(rbufLen) + n
      ensures rbuf[..rbufLen] == old(rbuf[..rbufLen] + ftb[..n]) && ftb == old(ftb)[n..]
    {
      forall i | 0 <= i < n {
        rbuf[rbufLen + i] := ftb[i];
      }
      rbufLen := rbufLen + n;
      ftb := ftb[n..];
    }

    /** The branch of on_read for a packet that is not complete. */
    method ReadMore(wanted: int, len: nat) returns (ended: bool)
      requires Valid() && !overrun && len == |ftb| && 0 < wanted == Remaining(rbuf[..rbufLen])
      modifies this, rbuf
      ensures Valid() && packets == old(packets)
      ensures ended ==> View() == old(Finish(rbuf[..rbufLen], ftb, packets, Asked()))
      ensures !ended ==> !overrun && disconnectReq == old(disconnectReq) && |ftb| <= len
      ensures !ended ==>
        Finish(rbuf[..rbufLen], ftb, packets, Asked()) == old(Finish(rbuf[..rbufLen], ftb, packets, Asked()))
      ensures !ended && len > 0 ==> |ftb| < len
      ensures !ended && len == 0 ==> ftb == [] && Drive(rbuf[..rbufLen], []) == Reader(rbuf[..rbufLen], [], [], Open)
    {
      if Wrap(rbufLen + wanted) > READ_BUFFER_SIZE {
        FinishRejects(rbuf[..rbufLen], ftb, packets, Asked());
        disconnectReq := true;
        return true;
      }
      var rem := if wanted > len then len else wanted;
      if rbufLen + rem > READ_BUFFER_SIZE {
        FinishOverruns(rbuf[..rbufLen], ftb, packets, Asked(), rem);
        overrun := true;
        return true;
      }
      FinishCollects(rbuf[..rbufLen], ftb, packets, Asked(), rem);
      Collect(rem);
      ended := false;
    }

    /** on_read with no transformer switched on: input goes straight to ftb. */
    method OnRead(input: seq<byte>)
      requires Valid()
      modifies this, rbuf
      ensures Valid() && View() == Feed(old(View()), input)
    {
      if overrun {
        assert rbuf[..rbufLen] + (ftb + input) == rbuf[..rbufLen] + ftb + input;
        ftb := ftb + input;
        return;
      }
      if input == [] {
        disconnectReq := true;
        return;
      }
      ftb := ftb + input;
      ghost var goal := Feed(old(View()), input);
      var more := true;
      while more
        invariant Valid() && !overrun
        invariant more ==> goal == Finish(rbuf[..rbufLen], ftb, packets, Asked())
        invariant !more ==> View() == goal
        decreases more, |ftb|, rbufLen
      {
        var len := |ftb|;
        var rem := RemainingBytes(rbuf, rbufLen);
        if rem < 0 {
          FinishRejects(rbuf[..rbufLen], ftb, packets, Asked());
          disconnectReq := true;
          return;
        } else if rem == 0 {
          FinishDelivers(rbuf[..rbufLen], ftb, packets, Asked());
          packets := packets + [rbuf[..rbufLen]];
          rbufLen := 0;
          assert rbuf[..rbufLen] == [];
        } else {
          var ended := ReadMore(rem, len);
          if ended {
            return;
          }
        }
        if len == 0 {
          FinishIdle(rbuf[..rbufLen], packets, Asked());
        }
        more := len > 0;
      }
    }
  }
}
