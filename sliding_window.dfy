/** The rolling mono buffer that feeds the spectrum analyser.
    Every block popped from the channel FIFO slides the fixed-length window
    left by the block's length and lands on its tail, so the window always
    holds the most recent samples of the incoming stream. */
module SlidingWindow {

  /** The window after absorbing one block: the oldest |block| samples drop out
      at the front and the block is appended at the back. */
  function ShiftAppend(window: seq<real>, block: seq<real>): (r: seq<real>)
    requires |block| <= |window|
    ensures |r| == |window|
  {
    window[|block|..] + block
  }

  /** The most recent n samples of a stream. */
  function Latest(stream: seq<real>, n: nat): (r: seq<real>)
    requires n <= |stream|
    ensures |r| == n
  {
    stream[|stream| - n..]
  }

  /** Every block fits in the window. */
  predicate Fits(window: seq<real>, blocks: seq<seq<real>>)
  {
    forall i :: 0 <= i < |blocks| ==> |blocks[i]| <= |window|
  }

  /** All samples of the blocks, oldest block first. */
  function Concat(blocks: seq<seq<real>>): (r: seq<real>)
  {
    if blocks == [] then [] else Concat(blocks[..|blocks| - 1]) + blocks[|blocks| - 1]
  }

  /** The window after absorbing the blocks one after another, in FIFO order. */
  function Absorb(window: seq<real>, blocks: seq<seq<real>>): (r: seq<real>)
    requires Fits(window, blocks)
    ensures |r| == |window|
    decreases |blocks|
  {
    if blocks == [] then window
    else ShiftAppend(Absorb(window, blocks[..|blocks| - 1]), blocks[|blocks| - 1])
  }

  /** The window as it stands after each block: the inputs handed to the FFT
      generator, one per absorbed block. */
  function Windows(window: seq<real>, blocks: seq<seq<real>>): (r: seq<seq<real>>)
    requires Fits(window, blocks)
    decreases |blocks|
  {
    if blocks == [] then []
    else Windows(window, blocks[..|blocks| - 1]) + [Absorb(window, blocks)]
  }

  /** Element by element: position j takes the sample `size` places to its
      right, and the last `size` positions take the block in order. An empty
      block leaves the window unchanged; a full-length block replaces it. */
  lemma ShiftAppendAt(window: seq<real>, block: seq<real>)
    requires |block| <= |window|
    ensures forall j :: 0 <= j < |window| - |block| ==> ShiftAppend(window, block)[j] == window[j + |block|]
    ensures forall j :: 0 <= j < |block| ==> ShiftAppend(window, block)[|window| - |block| + j] == block[j]
    ensures ShiftAppend(window, block)[..|window| - |block|] == window[|block|..]
    ensures ShiftAppend(window, block)[|window| - |block|..] == block
    ensures |block| == 0 ==> ShiftAppend(window, block) == window
    ensures |block| == |window| ==> ShiftAppend(window, block) == block
  {
  }

  /** One shift-append is a sliding window over the window followed by the block. */
  lemma ShiftAppendSlides(window: seq<real>, block: seq<real>)
    requires |block| <= |window|
    ensures ShiftAppend(window, block) == Latest(window + block, |window|)
  {
  }

  /** Keeping the last n samples and then appending a short block keeps the
      same n samples as appending to the whole stream. */
  lemma LatestAppend(stream: seq<real>, block: seq<real>, n: nat)
    requires |block| <= n <= |stream|
    ensures ShiftAppend(Latest(stream, n), block) == Latest(stream + block, n)
  {
  }

  /** However many blocks arrive, the window holds exactly the most recent
      |window| samples of the old window followed by all their samples. */
  lemma {:induction false} AbsorbIsLatest(window: seq<real>, blocks: seq<seq<real>>)
    requires Fits(window, blocks)
    ensures Absorb(window, blocks) == Latest(window + Concat(blocks), |window|)
    decreases |blocks|
  {
    if blocks == [] {
      assert window + Concat(blocks) == window;
    } else {
      var front, last := blocks[..|blocks| - 1], blocks[|blocks| - 1];
      assert Fits(window, front);
      AbsorbIsLatest(window, front);
      assert Concat(blocks) == Concat(front) + last;
      LatestAppend(window + Concat(front), last, |window|);
      assert window + Concat(front) + last == window + Concat(blocks);
    }
  }

  /** One FFT input per block, in FIFO order: the k-th is the window right after
      the k-th block was absorbed. */
  lemma {:induction false} WindowsAt(window: seq<real>, blocks: seq<seq<real>>)
    requires Fits(window, blocks)
    ensures |Windows(window, blocks)| == |blocks|
    ensures forall k :: 0 <= k < |blocks| ==> Windows(window, blocks)[k] == Absorb(window, blocks[..k + 1])
    decreases |blocks|
  {
    if blocks != [] {
      var front := blocks[..|blocks| - 1];
      assert Fits(window, front);
      WindowsAt(window, front);
      assert Windows(window, blocks) == Windows(window, front) + [Absorb(window, blocks)];
      forall k | 0 <= k < |blocks|
        ensures Windows(window, blocks)[k] == Absorb(window, blocks[..k + 1])
      {
        if k < |blocks| - 1 {
          assert front[..k + 1] == blocks[..k + 1];
          assert Windows(window, blocks)[k] == Windows(window, front)[k];
        } else {
          assert blocks[..k + 1] == blocks;
        }
      }
    }
  }

  /** The two copies of the timer callback, done in place on the buffer: an
      ascending left shift by |block|, then the block onto the tail. */
  method ShiftAppendInPlace(buffer: array<real>, block: seq<real>)
    requires |block| <= buffer.Length
    modifies buffer
    ensures buffer[..] == ShiftAppend(old(buffer[..]), block)
  {
    var n, size := buffer.Length, |block|;
    var j := 0;
    while j < n - size
      invariant 0 <= j <= n - size
      invariant forall k :: 0 <= k < j ==> buffer[k] == old(buffer[k + size])
      invariant forall k :: j <= k < n ==> buffer[k] == old(buffer[k])
    {
      buffer[j] := buffer[j + size];
      j := j + 1;
    }
    var i := 0;
    while i < size
      invariant 0 <= i <= size
      invariant forall k :: 0 <= k < n - size ==> buffer[k] == old(buffer[k + size])
      invariant forall k :: 0 <= k < i ==> buffer[n - size + k] == block[k]
    {
      buffer[n - size + i] := block[i];
      i := i + 1;
    }
    ghost var was := old(buffer[..]);
    assert forall k :: 0 <= k < n ==> buffer[..][k] == ShiftAppend(was, block)[k];
  }
}
