/** The two screen buffers: one is shown while the other is drawn. */
module FrameBuffer {
  import opened PpuSpec

  class Frame {
    var count: nat
    var frontBuffer: array<bv16>
    var backBuffer: array<bv16>
    ghost const buffers: set<array<bv16>>

    ghost predicate Valid()
      reads this
    {
      && frontBuffer in buffers && backBuffer in buffers && frontBuffer != backBuffer
      && (forall b :: b in buffers ==> b.Length == 61440)
      && count < FRAMES
    }

    ghost function Front(): Screen
      requires Valid()
      reads this, buffers
    {
      frontBuffer[..]
    }

    ghost function Back(): Screen
      requires Valid()
      reads this, buffers
    {
      backBuffer[..]
    }

    constructor ()
      ensures Valid() && fresh(buffers)
      ensures count == 0 && Front() == seq(61440, _ => 0) && Back() == seq(61440, _ => 0)
    {
      count := 0;
      var front, back := new bv16[61440](_ => 0), new bv16[61440](_ => 0);
      frontBuffer, backBuffer := front, back;
      buffers := {front, back};
    }

    method Increment()
      requires Valid()
      modifies this
      ensures Valid()
      ensures count == NextFrame(old(count)) && Front() == old(Back()) && Back() == old(Front())
    {
      count := (count + 1) % FRAMES;
      frontBuffer, backBuffer := backBuffer, frontBuffer;
    }

    method SetPixel(x: nat, y: nat, color: bv16)
      requires Valid() && x < 256 && y < 240
      modifies buffers
      ensures Valid() && Front() == old(Front())
      ensures Back() == old(Back())[x + 256 * y := color]
    {
      backBuffer[x + 256 * y] := color;
    }

    method Reset()
      requires Valid()
      modifies this, buffers
      ensures Valid()
      ensures count == 0 && Front() == seq(61440, _ => 0) && Back() == seq(61440, _ => 0)
    {
      count := 0;
      forall i | 0 <= i < frontBuffer.Length { frontBuffer[i] := 0; }
      forall i | 0 <= i < backBuffer.Length { backBuffer[i] := 0; }
    }
  }
}
