/** The "Effects" plugin's interceptor: a toggle and an in-place negation of a
    frame made of `height` scanlines of `stride` bytes each. */
module Effects {
  import opened PluginApi

  /** The bytes of a frame: a buffer viewed as rows of `stride` bytes. */
  type byte = bv8

  /** The native buffer holds every row that the loops of `Negate` visit. */
  predicate FrameFits(len: int, height: int, stride: int) {
    height <= 0 || stride <= 0 || height * stride <= len
  }

  /** Byte `i` lies in one of the `height` rows, padding included. */
  predicate InFrame(i: int, height: int, stride: int) {
    height > 0 && stride > 0 && 0 <= i < height * stride
  }

  /** Row `row` with every one of its `stride` bytes XORed with 0xFF. */
  function FlipRow(s: seq<byte>, row: nat, stride: nat): (r: seq<byte>)
    ensures |r| == |s|
  {
    seq(|s|, i requires 0 <= i < |s| =>
      if row * stride <= i < row * stride + stride then s[i] ^ 0xFF else s[i])
  }

  lemma MulStep(n: nat, stride: nat)
    requires n > 0
    ensures (n - 1) * stride + stride == n * stride
  {
  }

  /** Rows 0 .. n-1 flipped one after the other, as the outer loop of `Negate`
      does: exactly the bytes below n * stride are toggled. */
  function NegateRows(s: seq<byte>, n: nat, stride: nat): (r: seq<byte>)
    ensures |r| == |s|
    ensures forall i :: 0 <= i < |s| ==> r[i] == if i < n * stride then s[i] ^ 0xFF else s[i]
  {
    if n == 0 then s
    else
      MulStep(n, stride);
      FlipRow(NegateRows(s, n - 1, stride), n - 1, stride)
  }

  /** The frame after `Negate(pBuffer, height, stride)`: every byte of every
      row, stride padding included, is XORed with 0xFF; every other byte,
      and the whole buffer when a dimension is not positive, is kept. */
  function NegateFrame(s: seq<byte>, height: int, stride: int): (r: seq<byte>)
    ensures |r| == |s|
    ensures forall i :: 0 <= i < |s| ==> r[i] == if InFrame(i, height, stride) then s[i] ^ 0xFF else s[i]
  {
    if height <= 0 || stride <= 0 then s else NegateRows(s, height, stride)
  }

  /** Negating twice restores any buffer, for any geometry. */
  lemma NegateInvolution(s: seq<byte>, height: int, stride: int)
    ensures NegateFrame(NegateFrame(s, height, stride), height, stride) == s
  {
    var once := NegateFrame(s, height, stride);
    var twice := NegateFrame(once, height, stride);
    forall i | 0 <= i < |s| ensures twice[i] == s[i] {
      assert once[i] == if InFrame(i, height, stride) then s[i] ^ 0xFF else s[i];
    }
  }

  /** Two rows of four bytes: 00 00 00 00 | FF FF FF FF becomes FF FF FF FF | 00 00 00 00. */
  lemma NegateExample()
    ensures NegateFrame([0x00, 0x00, 0x00, 0x00, 0xFF, 0xFF, 0xFF, 0xFF], 2, 4)
         == [0xFF, 0xFF, 0xFF, 0xFF, 0x00, 0x00, 0x00, 0x00]
  {
    var s: seq<byte> := [0x00, 0x00, 0x00, 0x00, 0xFF, 0xFF, 0xFF, 0xFF];
    assert forall i :: 0 <= i < 8 ==> InFrame(i, 2, 4);
  }

  /** The effects the interceptor supports. */
  datatype Effect = Negate

  lemma MulMono(x: int, height: int, stride: int)
    requires 1 <= x <= height && stride > 0
    ensures x * stride <= height * stride
  {
  }

  /** In-place negation of the frame in `buf`; `b` is the byte pointer's offset
      from the start of the buffer, and the ghost `done` counts the bytes of the
      rows finished so far. */
  method NegateInPlace(buf: array<byte>, videoHeight: int, videoStride: int)
    requires FrameFits(buf.Length, videoHeight, videoStride)
    modifies buf
    ensures buf[..] == NegateFrame(old(buf[..]), videoHeight, videoStride)
  {
    ghost var was := buf[..];
    ghost var done := 0;
    var b := 0;
    var x := 1;
    while x <= videoHeight
      invariant 1 <= x <= if videoHeight >= 1 then videoHeight + 1 else 1
      invariant b == (x - 1) * videoStride
      invariant done == if videoStride > 0 then b else 0
      invariant forall i :: 0 <= i < buf.Length ==>
        buf[i] == if i < done then was[i] ^ 0xFF else was[i]
    {
      if videoStride > 0 {
        MulStep(x, videoStride);
        MulMono(x, videoHeight, videoStride);
      }
      var y := 0;
      while y < videoStride
        invariant 0 <= y <= if videoStride > 0 then videoStride else 0
        invariant b == (x - 1) * videoStride + y
        invariant forall i :: 0 <= i < buf.Length ==>
          buf[i] == if i < done + y then was[i] ^ 0xFF else was[i]
      {
        buf[b] := buf[b] ^ 0xFF;
        b := b + 1;
        y := y + 1;
      }
      assert done + y == if videoStride > 0 then x * videoStride else 0;
      b := 0;
      b := b + x * videoStride;
      x := x + 1;
      done := if videoStride > 0 then b else 0;
    }
    assert done == if videoHeight >= 1 && videoStride > 0 then videoHeight * videoStride else 0;
    assert forall i :: 0 <= i < buf.Length ==> buf[..][i] == NegateFrame(was, videoHeight, videoStride)[i];
  }

  /** A preprocessing interceptor that negates frames while enabled. */
  class EffectsInterceptor {
    var enabled: bool

    /** The processing categories the class implements: IPreprocessingInterceptor. */
    const Implemented: set<Category> := {Preprocessing}

    /** A new interceptor starts disabled. */
    constructor ()
      ensures !enabled
    {
      enabled := false;
    }

    /** Runs the selected effect on the frame; does nothing while disabled. */
    method Execute(buf: array<byte>, videoHeight: int, videoStride: int)
      requires enabled ==> FrameFits(buf.Length, videoHeight, videoStride)
      modifies buf
      ensures buf[..] == if enabled then NegateFrame(old(buf[..]), videoHeight, videoStride) else old(buf[..])
    {
      if !enabled {
        return;
      }
      NegateInPlace(buf, videoHeight, videoStride);
    }

    /** Turns the effect off. */
    method Disable()
      modifies this
      ensures !enabled
    {
      enabled := false;
    }

    /** Selects an effect; `Negate` turns the interceptor on. */
    method SetEffect(effect: Effect)
      modifies this
      ensures effect == Negate ==> enabled
    {
      match effect
      case Negate => enabled := true;
    }
  }
}
