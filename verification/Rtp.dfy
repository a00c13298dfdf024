/** RTP rewriting and keyframe detection (pkg/sfu/rtp.go). */
module Rtp {

  newtype Byte = b: int | 0 <= b < 0x100
  type Seq16 = n: int | 0 <= n < 0x1_0000
  type Time32 = n: int | 0 <= n < 0x1_0000_0000
  type Ssrc = n: int | 0 <= n < 0x1_0000_0000

  datatype Packet = Packet(seqNo: Seq16, timestamp: Time32, ssrc: Ssrc, payload: seq<Byte>)

  /** Unsigned 16-bit and 32-bit wrap-around. */
  function Low16(n: int): Seq16 { n % 0x1_0000 }
  function Low32(n: int): Time32 { n % 0x1_0000_0000 }

  lemma Low16Add(a: int, b: int)
    ensures Low16(Low16(a) + b) == Low16(a + b)
  {
  }

  lemma Low16Sum(a: int, b: int, c: int)
    ensures Low16(Low16(a) + Low16(b)) == Low16(a + b)
    ensures Low16(Low16(a) - Low16(b) + c) == Low16(a - b + c)
  {
  }

  lemma SmallLow16(n: int)
    requires 0 <= n < 0x1_0000
    ensures Low16(n) == n
  {
  }

  predicate WholeRangesApart(m: int, n: int) {
    Low16(n - m) == 0
  }

  lemma SameLow16(m: int, n: int, x: Seq16, y: Seq16)
    requires x == Low16(m) && y == Low16(n)
    ensures x == y <==> WholeRangesApart(m, n)
    ensures 0 < n - m < 0x1_0000 ==> x != y
  {
  }

  lemma Low32Add(a: int, b: int)
    ensures Low32(Low32(a) + b) == Low32(a + b)
  {
  }

  lemma Low32Sum(a: int, b: int, c: int)
    ensures Low32(Low32(a) + Low32(b)) == Low32(a + b)
    ensures Low32(Low32(a) - Low32(b) + c) == Low32(a - b + c)
  {
  }

  // ---------------------------------------------------------------- keyframes

  predicate IsKeyframe(payload: seq<Byte>, codec: string) {
    if payload == [] then false
    else if codec == "video/VP8" then payload[0] % 2 == 0 && payload[0] / 0x10 % 2 != 0
    else if codec == "video/VP9" then payload[0] / 0x40 % 2 == 0
    else if codec == "video/H264" then payload[0] % 0x20 == 5 || payload[0] % 0x20 == 7
    else false
  }

  lemma LowestBit(b: bv8)
    ensures b as int % 2 == 0 <==> b & 0x01 == 0
  {
  }

  lemma UpperBits(b: bv8)
    ensures b as int / 0x10 % 2 != 0 <==> b & 0x10 != 0
    ensures b as int / 0x40 % 2 == 0 <==> b & 0x40 == 0
  {
  }

  lemma LowerBits(b: bv8)
    ensures b as int % 0x20 == (b & 0x1f) as int
  {
  }

  /** Keyframes in the bits of the first byte; there are none without a payload, or for any other codec. */
  lemma KeyframeBits(b: bv8, rest: seq<Byte>, codec: string)
    ensures var payload := [b as int as Byte] + rest;
      && (IsKeyframe(payload, "video/VP8") <==> b & 0x01 == 0 && b & 0x10 != 0)
      && (IsKeyframe(payload, "video/VP9") <==> b & 0x40 == 0)
      && (IsKeyframe(payload, "video/H264") <==> b & 0x1f in {5, 7})
      && (codec !in {"video/VP8", "video/VP9", "video/H264"} ==> !IsKeyframe(payload, codec))
    ensures !IsKeyframe([], codec)
  {
    LowestBit(b);
    UpperBits(b);
    LowerBits(b);
  }

  // ---------------------------------------------------------------- the sequencer

  /** The fields of rtpSequencer. */
  datatype SeqState = SeqState(lastSeq: Seq16, seqOffset: Seq16, lastTS: Time32, tsOffset: Time32,
                               lastSSRC: Ssrc, inited: bool)

  const NEW_SEQUENCER := SeqState(0, 0, 0, 0, 0, false)

  /** The state in which Rewrite computes the packet it returns. */
  function Adjusted(s: SeqState, p: Packet, ssrc: Ssrc): SeqState {
    var s := if s.inited then s else s.(lastSeq := p.seqNo, lastTS := p.timestamp, lastSSRC := ssrc, inited := true);
    if p.ssrc == s.lastSSRC then s
    else s.(seqOffset := Low16(s.lastSeq - p.seqNo + 1),
            tsOffset := Low32(s.lastTS - p.timestamp + 1),
            lastSSRC := p.ssrc)
  }

  function Rewritten(s: SeqState, p: Packet, ssrc: Ssrc): Packet {
    var a := Adjusted(s, p, ssrc);
    Packet(Low16(p.seqNo + a.seqOffset), Low32(p.timestamp + a.tsOffset), ssrc, p.payload)
  }

  function AfterRewrite(s: SeqState, p: Packet, ssrc: Ssrc): SeqState {
    var q := Rewritten(s, p, ssrc);
    Adjusted(s, p, ssrc).(lastSeq := q.seqNo, lastTS := q.timestamp)
  }

  class RtpSequencer {
    var lastSeq: Seq16
    var seqOffset: Seq16
    var lastTS: Time32
    var tsOffset: Time32
    var lastSSRC: Ssrc
    var inited: bool

    function State(): SeqState
      reads this
    {
      SeqState(lastSeq, seqOffset, lastTS, tsOffset, lastSSRC, inited)
    }

    constructor ()
      ensures State() == NEW_SEQUENCER
    {
      lastSeq, seqOffset, lastTS, tsOffset, lastSSRC, inited := 0, 0, 0, 0, 0, false;
    }

    method Rewrite(packet: Packet, ssrc: Ssrc) returns (newPacket: Packet)
      modifies this
      ensures newPacket == Rewritten(old(State()), packet, ssrc)
      ensures State() == AfterRewrite(old(State()), packet, ssrc)
    {
      if !inited {
        lastSeq := packet.seqNo;
        lastTS := packet.timestamp;
        lastSSRC := ssrc;
        inited := true;
      }
      if packet.ssrc != lastSSRC {
        seqOffset := Low16(lastSeq - packet.seqNo + 1);
        tsOffset := Low32(lastTS - packet.timestamp + 1);
        lastSSRC := packet.ssrc;
      }
      newPacket := packet.(seqNo := Low16(packet.seqNo + seqOffset),
                           timestamp := Low32(packet.timestamp + tsOffset),
                           ssrc := ssrc);
      lastSeq := newPacket.seqNo;
      lastTS := newPacket.timestamp;
    }
  }

  // ---------------------------------------------------------------- the ideal stream

  /** A packet as its sender numbered it, before the numbers were cut to 16 and 32 bits. */
  datatype Source = Source(number: int, time: int, ssrc: Ssrc, payload: seq<Byte>) {
    function Wire(): Packet { Packet(Low16(number), Low32(time), ssrc, payload) }
  }

  /** A packet off the wire, taken at its own numbers. */
  function AsSource(p: Packet): (s: Source)
    ensures s.Wire() == p
  {
    Source(p.seqNo, p.timestamp, p.ssrc, p.payload)
  }

  /** Where the outgoing stream stands: the last packet taken in and the numbers it was given. */
  datatype Ideal = Empty | After(last: Source, number: int, time: int)

  /** Within one SSRC the outgoing numbers move as the incoming ones do; at each change of SSRC they
      move by exactly one. */
  function IdealNext(i: Ideal, p: Source, ssrc: Ssrc): Ideal {
    if i.Empty? then (if p.ssrc == ssrc then After(p, p.number, p.time) else After(p, p.number + 1, p.time + 1))
    else if p.ssrc == i.last.ssrc then After(p, i.number + p.number - i.last.number, i.time + p.time - i.last.time)
    else After(p, i.number + 1, i.time + 1)
  }

  function IdealRun(i: Ideal, ps: seq<Source>, ssrc: Ssrc): (js: seq<Ideal>)
    ensures |js| == |ps| && forall k :: 0 <= k < |js| ==> js[k].After? && js[k].last == ps[k]
    decreases ps
  {
    if ps == [] then [] else
    var i' := IdealNext(i, ps[0], ssrc);
    [i'] + IdealRun(i', ps[1..], ssrc)
  }

  function RewriteRun(s: SeqState, ps: seq<Packet>, ssrc: Ssrc): (qs: seq<Packet>)
    ensures |qs| == |ps|
    decreases ps
  {
    if ps == [] then [] else
    [Rewritten(s, ps[0], ssrc)] + RewriteRun(AfterRewrite(s, ps[0], ssrc), ps[1..], ssrc)
  }

  function Wires(ps: seq<Source>): (qs: seq<Packet>)
    ensures |qs| == |ps| && forall k :: 0 <= k < |ps| ==> qs[k] == ps[k].Wire()
    decreases ps
  {
    if ps == [] then [] else [ps[0].Wire()] + Wires(ps[1..])
  }

  /** The sequencer's fields are the ideal state modulo 2^16 and 2^32. */
  predicate Refines(s: SeqState, i: Ideal, ssrc: Ssrc) {
    match i
    case Empty => s == NEW_SEQUENCER
    case After(p, number, time) =>
      && s.inited && s.lastSSRC == p.ssrc
      && s.lastSeq == Low16(number) && s.lastTS == Low32(time)
      && s.seqOffset == Low16(number - p.number) && s.tsOffset == Low32(time - p.time)
  }

  /** The packet the ideal stream puts out for p, in state j. */
  function Cut(j: Ideal, ssrc: Ssrc): Packet
    requires j.After?
  {
    Packet(Low16(j.number), Low32(j.time), ssrc, j.last.payload)
  }

  lemma AddSmall(n: int, m: int)
    ensures Low16(Low16(n) + 0) == Low16(n) && Low16(Low16(n) + 1) == Low16(n + 1)
    ensures Low32(Low32(m) + 0) == Low32(m) && Low32(Low32(m) + 1) == Low32(m + 1)
    ensures Low16(0) == Low32(0) == 0 && Low16(1) == Low32(1) == 1
  {
  }

  lemma RefinesFirst(p: Source, ssrc: Ssrc)
    ensures var j := IdealNext(Empty, p, ssrc);
      && Refines(AfterRewrite(NEW_SEQUENCER, p.Wire(), ssrc), j, ssrc)
      && Rewritten(NEW_SEQUENCER, p.Wire(), ssrc) == Cut(j, ssrc)
  {
    AddSmall(p.number, p.time);
    var q := p.Wire();
    var offset := if p.ssrc == ssrc then 0 else 1;
    assert Adjusted(NEW_SEQUENCER, q, ssrc) == SeqState(q.seqNo, offset, q.timestamp, offset, q.ssrc, true);
    assert IdealNext(Empty, p, ssrc) == After(p, p.number + offset, p.time + offset);
  }

  lemma RefinesSame(s: SeqState, i: Ideal, p: Source, ssrc: Ssrc)
    requires i.After? && Refines(s, i, ssrc) && p.ssrc == i.last.ssrc
    ensures var j := IdealNext(i, p, ssrc);
      Refines(AfterRewrite(s, p.Wire(), ssrc), j, ssrc) && Rewritten(s, p.Wire(), ssrc) == Cut(j, ssrc)
  {
    Low16Sum(p.number, i.number - i.last.number, 0);
    Low32Sum(p.time, i.time - i.last.time, 0);
  }

  lemma RefinesSwitch(s: SeqState, i: Ideal, p: Source, ssrc: Ssrc)
    requires i.After? && Refines(s, i, ssrc) && p.ssrc != i.last.ssrc
    ensures var j := IdealNext(i, p, ssrc);
      Refines(AfterRewrite(s, p.Wire(), ssrc), j, ssrc) && Rewritten(s, p.Wire(), ssrc) == Cut(j, ssrc)
  {
    Low16Sum(i.number, p.number, 1);
    Low32Sum(i.time, p.time, 1);
    Low16Sum(p.number, i.number + 1 - p.number, 0);
    Low32Sum(p.time, i.time + 1 - p.time, 0);
  }

  lemma RefinesStep(s: SeqState, i: Ideal, p: Source, ssrc: Ssrc)
    requires Refines(s, i, ssrc)
    ensures var j := IdealNext(i, p, ssrc);
      Refines(AfterRewrite(s, p.Wire(), ssrc), j, ssrc) && Rewritten(s, p.Wire(), ssrc) == Cut(j, ssrc)
  {
    if i.Empty? {
      RefinesFirst(p, ssrc);
    } else if p.ssrc == i.last.ssrc {
      RefinesSame(s, i, p, ssrc);
    } else {
      RefinesSwitch(s, i, p, ssrc);
    }
  }

  /** Refinement. Whatever packets are rewritten, in whatever order of SSRCs, the output is the ideal
      stream cut to 16 and 32 bits, under the outgoing SSRC, with every payload untouched. */
  lemma {:induction false} RewriteRefinesIdeal(s: SeqState, i: Ideal, ps: seq<Source>, ssrc: Ssrc, k: nat)
    requires Refines(s, i, ssrc) && k < |ps|
    ensures var q := RewriteRun(s, Wires(ps), ssrc)[k]; var j := IdealRun(i, ps, ssrc)[k];
      q == Packet(Low16(j.number), Low32(j.time), ssrc, ps[k].payload)
    decreases k
  {
    RefinesStep(s, i, ps[0], ssrc);
    if k > 0 {
      RewriteRefinesIdeal(AfterRewrite(s, ps[0].Wire(), ssrc), IdealNext(i, ps[0], ssrc), ps[1..], ssrc, k - 1);
    }
  }

  // ---------------------------------------------------------------- what a receiver sees

  /** The signed 16-bit distance, as a receiver takes it (section 5.1 of RFC 3550). */
  function Nearest(delta: int): int {
    Low16(delta + 0x8000) - 0x8000
  }

  lemma NearestRecovers(m: int, n: int)
    requires -0x8000 <= n - m < 0x8000
    ensures m + Nearest(Low16(n) - m) == n
  {
    Low16Add(n, 0x8000 - m);
    SmallLow16(n - m + 0x8000);
  }

  /** A receiver that knows the full number of one packet extends the following ones by nearest
      difference. */
  function Unwrap(number: int, qs: seq<Packet>): (ns: seq<int>)
    ensures |ns| == |qs|
    decreases qs
  {
    if qs == [] then [] else
    var n := number + Nearest(qs[0].seqNo - number);
    [n] + Unwrap(n, qs[1..])
  }

  predicate SmallStep(m: int, n: int) {
    -0x8000 <= n - m < 0x8000
  }

  lemma {:induction false} UnwrapRecovers(m: int, qs: seq<Packet>, ns: seq<int>, k: nat)
    requires k < |qs| == |ns|
    requires forall a :: 0 <= a < |ns| ==> qs[a].seqNo == Low16(ns[a])
    requires SmallStep(m, ns[0]) && forall a :: 0 < a < |ns| ==> SmallStep(ns[a - 1], ns[a])
    ensures Unwrap(m, qs)[k] == ns[k]
    decreases k
  {
    NearestRecovers(m, ns[0]);
    if k > 0 {
      UnwrapRecovers(ns[0], qs[1..], ns[1..], k - 1);
    }
  }

  lemma {:induction false} IdealAt(i: Ideal, ps: seq<Source>, ssrc: Ssrc, k: nat)
    requires 0 < k < |ps|
    ensures var js := IdealRun(i, ps, ssrc); js[k] == IdealNext(js[k - 1], ps[k], ssrc)
    decreases ps
  {
    if k > 1 {
      IdealAt(IdealNext(i, ps[0], ssrc), ps[1..], ssrc, k - 1);
    }
  }

  /** Jumps and reorderings inside a run of one SSRC stay below half the number range. */
  predicate WithinHalfRange(ps: seq<Source>) {
    forall k :: 0 < k < |ps| && ps[k].ssrc == ps[k - 1].ssrc ==> SmallStep(ps[k - 1].number, ps[k].number)
  }

  function Numbers(js: seq<Ideal>): (ns: seq<int>)
    requires forall k :: 0 <= k < |js| ==> js[k].After?
    ensures |ns| == |js| && forall k :: 0 <= k < |js| ==> ns[k] == js[k].number
  {
    seq(|js|, k requires 0 <= k < |js| => js[k].number)
  }

  /** Round trip. A receiver that knows the number of the first packet recovers all ideal numbers. */
  lemma ReceiverRecoversIdeal(ps: seq<Source>, ssrc: Ssrc, k: nat)
    requires WithinHalfRange(ps) && k < |ps|
    ensures var js := IdealRun(Empty, ps, ssrc);
      Unwrap(js[0].number, RewriteRun(NEW_SEQUENCER, Wires(ps), ssrc))[k] == js[k].number
  {
    var js := IdealRun(Empty, ps, ssrc);
    var ns := Numbers(js);
    var qs := RewriteRun(NEW_SEQUENCER, Wires(ps), ssrc);
    forall a | 0 <= a < |ns|
      ensures qs[a].seqNo == Low16(ns[a])
    {
      RewriteRefinesIdeal(NEW_SEQUENCER, Empty, ps, ssrc, a);
    }
    forall a | 0 < a < |ns|
      ensures SmallStep(ns[a - 1], ns[a])
    {
      IdealAt(Empty, ps, ssrc, a);
    }
    UnwrapRecovers(js[0].number, qs, ns, k);
  }

  /** Inside every run of one SSRC the numbers only go up. */
  predicate RunsGoForward(ps: seq<Source>) {
    forall k :: 0 < k < |ps| && ps[k].ssrc == ps[k - 1].ssrc ==> ps[k].number > ps[k - 1].number
  }

  lemma {:induction false} IdealGoesForward(i: Ideal, ps: seq<Source>, ssrc: Ssrc, a: nat, b: nat)
    requires RunsGoForward(ps) && a < b < |ps|
    ensures IdealRun(i, ps, ssrc)[a].number < IdealRun(i, ps, ssrc)[b].number
    decreases b
  {
    IdealAt(i, ps, ssrc, b);
    if a < b - 1 {
      IdealGoesForward(i, ps, ssrc, a, b - 1);
    }
  }

  lemma NumberAt(ps: seq<Source>, ssrc: Ssrc, k: nat) returns (x: Seq16)
    requires k < |ps|
    ensures x == RewriteRun(NEW_SEQUENCER, Wires(ps), ssrc)[k].seqNo
    ensures x == Low16(IdealRun(Empty, ps, ssrc)[k].number)
  {
    RewriteRefinesIdeal(NEW_SEQUENCER, Empty, ps, ssrc, k);
    x := RewriteRun(NEW_SEQUENCER, Wires(ps), ssrc)[k].seqNo;
  }

  /** No duplicates. Two outgoing packets carry the same number exactly when they are a multiple of
      2^16 apart in the ideal stream, however the SSRCs interleave; so a window narrower than the
      number range has no duplicate. */
  lemma NoDuplicateNumbers(ps: seq<Source>, ssrc: Ssrc, a: nat, b: nat)
    requires RunsGoForward(ps) && a < b < |ps|
    ensures var js := IdealRun(Empty, ps, ssrc); var qs := RewriteRun(NEW_SEQUENCER, Wires(ps), ssrc);
      && js[a].number < js[b].number
      && (qs[a].seqNo == qs[b].seqNo <==> WholeRangesApart(js[a].number, js[b].number))
      && (js[b].number - js[a].number < 0x1_0000 ==> qs[a].seqNo != qs[b].seqNo)
  {
    IdealGoesForward(Empty, ps, ssrc, a, b);
    var x := NumberAt(ps, ssrc, a);
    var y := NumberAt(ps, ssrc, b);
    SameLow16(IdealRun(Empty, ps, ssrc)[a].number, IdealRun(Empty, ps, ssrc)[b].number, x, y);
  }

  predicate Apart(p: Packet, q: Packet, distance: int) {
    q.seqNo == Low16(p.seqNo + distance)
  }

  /** The output moves as the ideal stream does. */
  lemma OutputMoves(ps: seq<Source>, ssrc: Ssrc, k: nat, distance: int)
    requires 0 < k < |ps| && IdealRun(Empty, ps, ssrc)[k].number == IdealRun(Empty, ps, ssrc)[k - 1].number + distance
    ensures var qs := RewriteRun(NEW_SEQUENCER, Wires(ps), ssrc); Apart(qs[k - 1], qs[k], distance)
  {
    var x := NumberAt(ps, ssrc, k - 1);
    var y := NumberAt(ps, ssrc, k);
    Low16Add(IdealRun(Empty, ps, ssrc)[k - 1].number, distance);
  }

  /** Neighbours of one SSRC keep the distance they came with. */
  lemma DistanceIsKept(ps: seq<Source>, ssrc: Ssrc, k: nat)
    requires 0 < k < |ps| && ps[k].ssrc == ps[k - 1].ssrc
    ensures var qs := RewriteRun(NEW_SEQUENCER, Wires(ps), ssrc);
      Apart(qs[k - 1], qs[k], ps[k].number - ps[k - 1].number)
  {
    IdealAt(Empty, ps, ssrc, k);
    OutputMoves(ps, ssrc, k, ps[k].number - ps[k - 1].number);
  }

  /** The first packet keeps its number and its time under its own SSRC, and is moved by one under another. */
  lemma FirstPacket(ps: seq<Source>, ssrc: Ssrc)
    requires ps != []
    ensures var q := RewriteRun(NEW_SEQUENCER, Wires(ps), ssrc)[0];
      var moved := if ps[0].ssrc == ssrc then 0 else 1;
      q.seqNo == Low16(ps[0].number + moved) && q.timestamp == Low32(ps[0].time + moved)
  {
    RewriteRefinesIdeal(NEW_SEQUENCER, Empty, ps, ssrc, 0);
  }

  /** Times move with the layer's own clock, and by a single tick at every change of SSRC. */
  lemma TimestampsMove(ps: seq<Source>, ssrc: Ssrc, k: nat)
    requires 0 < k < |ps|
    ensures var qs := RewriteRun(NEW_SEQUENCER, Wires(ps), ssrc);
      qs[k].timestamp ==
        Low32(qs[k - 1].timestamp + if ps[k].ssrc == ps[k - 1].ssrc then ps[k].time - ps[k - 1].time else 1)
  {
    IdealAt(Empty, ps, ssrc, k);
    RewriteRefinesIdeal(NEW_SEQUENCER, Empty, ps, ssrc, k - 1);
    RewriteRefinesIdeal(NEW_SEQUENCER, Empty, ps, ssrc, k);
    Low32Add(IdealRun(Empty, ps, ssrc)[k - 1].time,
             if ps[k].ssrc == ps[k - 1].ssrc then ps[k].time - ps[k - 1].time else 1);
  }

  predicate Consecutive(p: Packet, q: Packet) {
    Apart(p, q, 1)
  }

  predicate OneApart(p: Source, q: Source) {
    Low16(q.number - p.number) == 1
  }

  lemma OneFurther(p: Packet, q: Packet, distance: int)
    requires Apart(p, q, distance)
    ensures Consecutive(p, q) <==> Low16(distance) == 1
  {
    SameLow16(p.seqNo + 1, p.seqNo + distance, Low16(p.seqNo + 1), Low16(p.seqNo + distance));
    SameLow16(1, distance, Low16(1), Low16(distance));
    assert (p.seqNo + distance) - (p.seqNo + 1) == distance - 1;
  }

  /** Two neighbours in the output are consecutive exactly when a layer was changed between them or they
      were consecutive on the way in. */
  lemma ConsecutiveExactly(ps: seq<Source>, ssrc: Ssrc, k: nat)
    requires 0 < k < |ps|
    ensures var qs := RewriteRun(NEW_SEQUENCER, Wires(ps), ssrc);
      Consecutive(qs[k - 1], qs[k]) <==> ps[k].ssrc != ps[k - 1].ssrc || OneApart(ps[k - 1], ps[k])
  {
    var qs := RewriteRun(NEW_SEQUENCER, Wires(ps), ssrc);
    if ps[k].ssrc == ps[k - 1].ssrc {
      DistanceIsKept(ps, ssrc, k);
      OneFurther(qs[k - 1], qs[k], ps[k].number - ps[k - 1].number);
    } else {
      IdealAt(Empty, ps, ssrc, k);
      OutputMoves(ps, ssrc, k, 1);
    }
  }

  /** Each packet follows its predecessor of the same SSRC without a gap. */
  predicate RunsAreGapless(ps: seq<Source>) {
    forall k :: 0 < k < |ps| && ps[k].ssrc == ps[k - 1].ssrc ==> ps[k].number == ps[k - 1].number + 1
  }

  /** Gapless runs are spliced into one gapless stream. */
  lemma GaplessRunsGiveGaplessStream(ps: seq<Source>, ssrc: Ssrc, k: nat)
    requires RunsAreGapless(ps) && 0 < k < |ps|
    ensures var qs := RewriteRun(NEW_SEQUENCER, Wires(ps), ssrc);
      Consecutive(qs[k - 1], qs[k]) && qs[k].ssrc == qs[k - 1].ssrc == ssrc
  {
    RewriteRefinesIdeal(NEW_SEQUENCER, Empty, ps, ssrc, k - 1);
    RewriteRefinesIdeal(NEW_SEQUENCER, Empty, ps, ssrc, k);
    IdealAt(Empty, ps, ssrc, k);
    OutputMoves(ps, ssrc, k, 1);
  }
}
