/**
  Stereo frame copying in the player (main.js).

  Two loops move samples between flat interleaved blocks (L, R, L, R, ...)
  and per-channel arrays:
  - the source's `extract` closure interleaves the decoded channels into a
    target block, starting at a frame `position` chosen by the pitch/tempo
    filter, and returns min(numFrames, length - position);
  - the output callback deinterleaves the first `framesExtracted` frames of
    the filter's block into the left and right output channels.

  Samples are only copied, never computed on, so their type is a parameter.
  Every array involved is a Float32Array in the source, whose two quirks are
  written out: reading past the end of a channel gives `undefined`, which
  the target stores as NaN, and a write past the end of a typed array is
  silently dropped.
*/
module Frames {

  /** Frames per output block; the filter's block holds twice as many entries. */
  const BUFFER_SIZE: nat := 8192

  /**
    One entry of a Float32Array: a decoded sample (copied, never inspected),
    the 0.0 a freshly allocated array holds, or the NaN stored when the
    entry is assigned `undefined`.
  */
  datatype Cell<T> = Sample(value: T) | Zero | NaN

  /** Decoded audio: the channels returned by getChannelData(0) and (1). */
  datatype AudioData<T> = AudioData(left: seq<T>, right: seq<T>)

  /** `ch[k]` stored into a Float32Array: the sample, or NaN off either end. */
  function SampleAt<T>(ch: seq<T>, k: int): Cell<T>
  {
    if 0 <= k < |ch| then Sample(ch[k]) else NaN
  }

  /** The samples of `s`, each as a stored cell. */
  function AsCells<T>(s: seq<T>): (cells: seq<Cell<T>>)
    ensures |cells| == |s|
    ensures forall i :: 0 <= i < |s| ==> cells[i] == Sample(s[i])
  {
    seq(|s|, i requires 0 <= i < |s| => Sample(s[i]))
  }

  /**
    Reference definition of the interleaved block: `n` frames read from
    `position` on, each frame appended as a left, right pair.
  */
  function Interleave<T>(l: seq<T>, r: seq<T>, position: int, n: nat): (block: seq<Cell<T>>)
    ensures |block| == 2 * n
  {
    if n == 0 then []
    else Interleave(l, r, position, n - 1) + [SampleAt(l, position + n - 1), SampleAt(r, position + n - 1)]
  }

  /**
    Reference definition of one output channel: entry `ch` of each of the
    first `n` frames of an interleaved block (0 is left, 1 is right).
  */
  function Channel<T>(block: seq<T>, n: nat, ch: nat): (s: seq<T>)
    requires ch < 2 && 2 * n <= |block|
    ensures |s| == n
  {
    if n == 0 then [] else Channel(block, n - 1, ch) + [block[2 * (n - 1) + ch]]
  }

  /**
    A typed array of |base| entries after `block` is written at indices
    0, 1, 2, ...: writes at an index past its end are dropped.
  */
  function Overwrite<T>(base: seq<T>, block: seq<T>): (s: seq<T>)
    ensures |s| == |base|
    ensures forall k :: 0 <= k < |s| ==> s[k] == if k < |block| then block[k] else base[k]
  {
    if |block| <= |base| then block + base[|block|..] else block[..|base|]
  }

  /** The value `extract` returns: Math.min(numFrames, length - position). */
  function ExtractCount(numFrames: nat, length: nat, position: int): (count: int)
    ensures count <= numFrames && count <= length - position
    ensures count == numFrames || count == length - position
  {
    if numFrames <= length - position then numFrames else length - position
  }

  /** How many of the `n` frames read from `position` on lie inside `ch`. */
  function AvailableFrames<T>(ch: seq<T>, position: int, n: nat): nat
  {
    if n == 0 then 0
    else AvailableFrames(ch, position, n - 1) + (if 0 <= position + n - 1 < |ch| then 1 else 0)
  }

  /**
    The count `extract` returns is the number of real frames it copied when
    the position lies within the channel, and is negative (while no frame
    is real) once the position is past its end.
  */
  lemma {:induction false} ExtractCountIsAvailable<T>(ch: seq<T>, position: int, n: nat)
    ensures 0 <= position <= |ch| ==> ExtractCount(n, |ch|, position) == AvailableFrames(ch, position, n)
    ensures position > |ch| ==> AvailableFrames(ch, position, n) == 0 && ExtractCount(n, |ch|, position) < 0
  {
    if n > 0 {
      ExtractCountIsAvailable(ch, position, n - 1);
    }
  }

  /** Frame `i` of the interleaved block sits at 2i (left) and 2i + 1 (right). */
  lemma {:induction false} InterleaveAt<T>(l: seq<T>, r: seq<T>, position: int, n: nat, i: nat)
    requires i < n
    ensures Interleave(l, r, position, n)[2 * i] == SampleAt(l, position + i)
    ensures Interleave(l, r, position, n)[2 * i + 1] == SampleAt(r, position + i)
  {
    if i < n - 1 {
      InterleaveAt(l, r, position, n - 1, i);
    }
  }

  /** Entry `i` of an output channel is entry 2i + ch of the block. */
  lemma {:induction false} ChannelAt<T>(block: seq<T>, n: nat, ch: nat, i: nat)
    requires ch < 2 && 2 * n <= |block| && i < n
    ensures Channel(block, n, ch)[i] == block[2 * i + ch]
  {
    if i < n - 1 {
      ChannelAt(block, n - 1, ch, i);
    }
  }

  /**
    Both loops use the same layout: deinterleaving a block interleaved from
    `position` gives back the frames position .. position + n of each
    channel, whenever they exist.
  */
  lemma RoundTrip<T>(l: seq<T>, r: seq<T>, position: nat, n: nat)
    requires position + n <= |l| && position + n <= |r|
    ensures Channel(Interleave(l, r, position, n), n, 0) == AsCells(l[position..position + n])
    ensures Channel(Interleave(l, r, position, n), n, 1) == AsCells(r[position..position + n])
  {
    var block := Interleave(l, r, position, n);
    forall i | 0 <= i < n
      ensures Channel(block, n, 0)[i] == AsCells(l[position..position + n])[i]
      ensures Channel(block, n, 1)[i] == AsCells(r[position..position + n])[i]
    {
      InterleaveAt(l, r, position, n, i);
      ChannelAt(block, n, 0, i);
      ChannelAt(block, n, 1, i);
    }
  }

  /** An output channel depends only on the first 2n entries of the block. */
  lemma {:induction false} ChannelOfPrefix<T>(block: seq<T>, other: seq<T>, n: nat, ch: nat)
    requires ch < 2 && 2 * n <= |block| && 2 * n <= |other|
    requires block[..2 * n] == other[..2 * n]
    ensures Channel(block, n, ch) == Channel(other, n, ch)
  {
    if n > 0 {
      assert block[..2 * (n - 1)] == block[..2 * n][..2 * (n - 1)];
      assert other[..2 * (n - 1)] == other[..2 * n][..2 * (n - 1)];
      assert block[2 * (n - 1) + ch] == block[..2 * n][2 * (n - 1) + ch];
      assert other[2 * (n - 1) + ch] == other[..2 * n][2 * (n - 1) + ch];
      ChannelOfPrefix(block, other, n - 1, ch);
    }
  }

  /**
    The round trip through a real target: when the target holds at least
    2n entries, deinterleaving n frames of it after `extract` wrote the
    frames from `position` on gives those frames back, whatever the target
    held before.
  */
  lemma RoundTripThroughTarget<T>(base: seq<Cell<T>>, l: seq<T>, r: seq<T>, position: nat, n: nat)
    requires 2 * n <= |base|
    requires position + n <= |l| && position + n <= |r|
    ensures Channel(Overwrite(base, Interleave(l, r, position, n)), n, 0) == AsCells(l[position..position + n])
    ensures Channel(Overwrite(base, Interleave(l, r, position, n)), n, 1) == AsCells(r[position..position + n])
  {
    var block := Interleave(l, r, position, n);
    var written := Overwrite(base, block);
    assert written[..2 * n] == block[..2 * n];
    ChannelOfPrefix(written, block, n, 0);
    ChannelOfPrefix(written, block, n, 1);
    RoundTrip(l, r, position, n);
  }

  /**
    The source's `extract(target, numFrames, position)` over the decoded
    `data` the closure captures. The loop always runs numFrames times, so
    frames past the end of the channels are written as NaN, and the count
    it returns is negative when position exceeds the channel length. It
    neither owns nor advances a cursor.
  */
  method Extract<T>(data: AudioData<T>, target: array<Cell<T>>, numFrames: nat, position: int)
    returns (count: int)
    modifies target
    ensures target[..] == Overwrite(old(target[..]), Interleave(data.left, data.right, position, numFrames))
    ensures count == ExtractCount(numFrames, |data.left|, position)
  {
    ghost var block := Interleave(data.left, data.right, position, numFrames);
    var i := 0;
    while i < numFrames
      invariant 0 <= i <= numFrames
      invariant forall k :: 0 <= k < target.Length ==>
        target[k] == if k < 2 * i then block[k] else old(target[k])
    {
      InterleaveAt(data.left, data.right, position, numFrames, i);
      if 2 * i < target.Length {
        target[2 * i] := SampleAt(data.left, i + position);
      }
      if 2 * i + 1 < target.Length {
        target[2 * i + 1] := SampleAt(data.right, i + position);
      }
      i := i + 1;
    }
    assert forall k :: 0 <= k < target.Length ==> target[..][k] == Overwrite(old(target[..]), block)[k];
    count := ExtractCount(numFrames, |data.left|, position);
  }

  /**
    The output callback's loop: left[i] := samples[2i] and
    right[i] := samples[2i + 1] for every i < framesExtracted; every other
    output entry is left as it was.
  */
  method Deinterleave<T>(samples: array<Cell<T>>, framesExtracted: nat, left: array<Cell<T>>, right: array<Cell<T>>)
    requires 2 * framesExtracted <= samples.Length
    requires framesExtracted <= left.Length && framesExtracted <= right.Length
    requires left != right && left != samples && right != samples
    modifies left, right
    ensures left[..] == Overwrite(old(left[..]), Channel(samples[..], framesExtracted, 0))
    ensures right[..] == Overwrite(old(right[..]), Channel(samples[..], framesExtracted, 1))
  {
    var i := 0;
    while i < framesExtracted
      invariant 0 <= i <= framesExtracted
      invariant forall k :: 0 <= k < left.Length ==> left[k] == if k < i then samples[2 * k] else old(left[k])
      invariant forall k :: 0 <= k < right.Length ==> right[k] == if k < i then samples[2 * k + 1] else old(right[k])
    {
      left[i] := samples[i * 2];
      right[i] := samples[i * 2 + 1];
      i := i + 1;
    }
    forall k | 0 <= k < framesExtracted
      ensures left[k] == Channel(samples[..], framesExtracted, 0)[k]
      ensures right[k] == Channel(samples[..], framesExtracted, 1)[k]
    {
      ChannelAt(samples[..], framesExtracted, 0, k);
      ChannelAt(samples[..], framesExtracted, 1, k);
    }
    assert forall k :: 0 <= k < left.Length ==>
      left[..][k] == Overwrite(old(left[..]), Channel(samples[..], framesExtracted, 0))[k];
    assert forall k :: 0 <= k < right.Length ==>
      right[..][k] == Overwrite(old(right[..]), Channel(samples[..], framesExtracted, 1))[k];
  }
}
