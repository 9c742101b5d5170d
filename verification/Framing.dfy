/** Bytes, lines and the LF framing shared by the protected protocol and the worker pipes. */
module Framing {
  type Byte = x: int | 0 <= x < 256 witness 0

  const LF: Byte := 10

  /** A lower-case hexadecimal digit. */
  function Hex(d: int): (h: Byte)
    requires 0 <= d < 16
    ensures 0x30 <= h < 0x80
  {
    if d < 10 then 48 + d else 87 + d
  }

  predicate LFFree(b: seq<Byte>) {
    forall i :: 0 <= i < |b| ==> b[i] != LF
  }

  /** Position of the first LF, or the length. */
  function FindLF(b: seq<Byte>): (i: nat)
    ensures i <= |b|
    ensures i < |b| ==> b[i] == LF
    ensures forall j :: 0 <= j < i ==> b[j] != LF
  {
    if b == [] || b[0] == LF then 0 else 1 + FindLF(b[1..])
  }

  function Line(frame: seq<Byte>): seq<Byte> {
    frame + [LF]
  }

  lemma FindLFInLine(frame: seq<Byte>, rest: seq<Byte>)
    requires LFFree(frame)
    ensures FindLF(Line(frame) + rest) == |frame|
    ensures (Line(frame) + rest)[..|frame|] == frame
    ensures (Line(frame) + rest)[|frame| + 1..] == rest
  {
    var b := Line(frame) + rest;
    assert b[|frame|] == LF;
    assert forall j :: 0 <= j < |frame| ==> b[j] == frame[j];
  }
}
