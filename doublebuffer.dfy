/**
 * The double buffer (doublebuffer.js): two equally sized render targets, one
 * labelled `read` (the current value of a field) and one labelled `write`
 * (where the next pass targeting the field draws). Passes never read and write
 * the same target; after a pass writes, the labels are swapped.
 */
module DoubleBuffers {
  import opened Gl

  /** The labels of a double buffer at one moment. */
  datatype Pair = Pair(read: BufferId, write: BufferId)

  /** The labels after one flip. */
  function Swap(p: Pair): Pair
  {
    Pair(p.write, p.read)
  }

  /** The labels after `n` flips. */
  function FlipTimes(p: Pair, n: nat): Pair
  {
    if n == 0 then p else Swap(FlipTimes(p, n - 1))
  }

  /** An even number of flips restores the labels, an odd number leaves them swapped. */
  lemma {:induction false} FlipParity(p: Pair, n: nat)
    ensures FlipTimes(p, n) == if n % 2 == 0 then p else Swap(p)
  {
    if n > 0 {
      FlipParity(p, n - 1);
    }
  }

  /** With two distinct targets, `n` flips give back the original pairing exactly when `n` is even. */
  lemma FlipRestoresIffEven(p: Pair, n: nat)
    requires p.read != p.write
    ensures FlipTimes(p, n) == p <==> n % 2 == 0
    ensures FlipTimes(p, n) == Swap(p) <==> n % 2 == 1
  {
    FlipParity(p, n);
  }

  /** Flipping `a` times and then `b` times is flipping `a + b` times. */
  lemma {:induction false} FlipsCompose(p: Pair, a: nat, b: nat)
    ensures FlipTimes(FlipTimes(p, a), b) == FlipTimes(p, a + b)
  {
    if b > 0 {
      FlipsCompose(p, a, b - 1);
    }
  }

  class DoubleBuffer {
    var read: BufferId
    var write: BufferId

    function Labels(): Pair
      reads this
    {
      Pair(read, write)
    }

    /** Both labels name distinct live targets of one size. */
    ghost predicate Valid(gl: Backend)
      reads this, gl
    {
      && read != write
      && read in gl.contents && write in gl.contents
      && gl.contents[read].width == gl.contents[write].width
      && gl.contents[read].height == gl.contents[write].height
    }

    /** Creates the `read` target and its clone `write`, both zero and of the given size. */
    constructor (gl: Backend, width: nat, height: nat)
      requires gl.Valid()
      modifies gl
      ensures gl.Valid() && Valid(gl)
      ensures read !in old(gl.contents) && write !in old(gl.contents)
      ensures gl.ops == old(gl.ops) + [Create(read, width, height), Create(write, width, height)]
      ensures gl.contents == old(gl.contents)[read := Surface(width, height, Zero)][write := Surface(width, height, Zero)]
    {
      var r := gl.CreateTarget(width, height);
      var w := gl.CloneTarget(r);
      read, write := r, w;
    }

    /** Swaps the labels; no target is copied or changed. */
    method Flip()
      modifies this
      ensures Labels() == Swap(old(Labels()))
    {
      var tmp := read;
      read := write;
      write := tmp;
    }

    /** Zeroes the `write` target, then flips, so the zeroed target becomes `read`. */
    method Clear(gl: Backend)
      requires gl.Valid() && Valid(gl)
      modifies this, gl
      ensures gl.Valid() && Valid(gl)
      ensures Labels() == Swap(old(Labels()))
      ensures gl.ops == old(gl.ops) + [Op.Clear(old(write))]
      ensures gl.contents == old(gl.contents)[old(write) := old(gl.contents)[old(write)].(image := Zero)]
      ensures gl.contents[read].image == Zero
      ensures gl.contents[write] == old(gl.contents)[old(read)]
    {
      gl.ClearTarget(write);
      Flip();
    }
  }
}
