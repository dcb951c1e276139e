/** The bounded tail of a tool's output. */
module LogTail {
  import opened Seqs

  type Bytes = seq<bv8>

  const LogCap: nat := 0x4_0000

  /** The last LogCap bytes, or all of them. */
  function TrimLog(s: Bytes): Bytes {
    if |s| <= LogCap then s else s[|s| - LogCap..]
  }

  /** What one write makes of the buffer: it is cut back only when it would pass twice the cap. */
  function Written(buf: Bytes, p: Bytes): Bytes {
    if |p| == 0 then buf
    else (if |buf| + |p| > LogCap * 2 then TrimLog(buf) else buf) + p
  }

  class StreamWriter {
    var buf: Bytes

    constructor ()
      ensures buf == []
    {
      buf := [];
    }

    method Write(p: Bytes) returns (n: nat)
      modifies this
      ensures buf == Written(old(buf), p) && n == |p|
    {
      if |p| == 0 {
        return 0;
      }
      if |buf| + |p| > LogCap * 2 {
        var keep := buf;
        if |keep| > LogCap {
          buf := [];
          buf := buf + keep[|keep| - LogCap..];
        }
      }
      buf := buf + p;
      return |p|;
    }
  }

  function Buffer(writes: seq<Bytes>): Bytes {
    if writes == [] then [] else Written(Buffer(writes[..|writes| - 1]), writes[|writes| - 1])
  }

  function Output(writes: seq<Bytes>): Bytes {
    if writes == [] then [] else Output(writes[..|writes| - 1]) + writes[|writes| - 1]
  }

  ghost predicate IsTail(buf: Bytes, all: Bytes) {
    |buf| <= |all| && buf == all[|all| - |buf|..] && |buf| >= Min(|all|, 0x4_0000)
  }

  lemma WriteKeepsTail(buf: Bytes, all: Bytes, p: Bytes)
    requires IsTail(buf, all)
    ensures IsTail(Written(buf, p), all + p)
  {
    var kept := if |p| > 0 && |buf| + |p| > LogCap * 2 then TrimLog(buf) else buf;
    assert kept == all[|all| - |kept|..];
    assert kept + p == (all + p)[|all| - |kept|..];
    assert |p| == 0 ==> kept + p == buf;
  }

  /** Whatever is written in whatever portions, trimming the buffer gives the last LogCap bytes of all of it. */
  lemma {:induction false} TailRefines(writes: seq<Bytes>)
    ensures IsTail(Buffer(writes), Output(writes))
    ensures TrimLog(Buffer(writes)) == TrimLog(Output(writes))
  {
    if writes == [] {
    } else {
      var n := |writes| - 1;
      TailRefines(writes[..n]);
      WriteKeepsTail(Buffer(writes[..n]), Output(writes[..n]), writes[n]);
    }
    TrimSame(Buffer(writes), Output(writes));
  }

  lemma TrimSame(buf: Bytes, all: Bytes)
    requires IsTail(buf, all)
    ensures TrimLog(buf) == TrimLog(all)
  {
    if |buf| > LogCap {
      assert buf[|buf| - LogCap..] == all[|all| - LogCap..];
    }
  }

  /** The buffer stays within twice the cap, or the cap and one write. */
  lemma {:induction false} BufferBounded(writes: seq<Bytes>, most: nat)
    requires forall i :: 0 <= i < |writes| ==> |writes[i]| <= most
    ensures |Buffer(writes)| <= 0x8_0000 || |Buffer(writes)| <= 0x4_0000 + most
  {
    if writes != [] {
      var n := |writes| - 1;
      BufferBounded(writes[..n], most);
    }
  }
}
