/**
  The AudioPlayer object (main.js): whether its processing chain is
  attached to the output, the filter's output block `samples`, and the
  output callback that turns that block into the two output channels.

  The Web Audio graph is reduced to one flag: `connected` is true while the
  script processor is wired through the gain node to the destination.
  The pitch/tempo filter is external: what it writes into `samples` inside
  the callback, and the frame count it returns, are parameters.
*/
module Player {
  import opened Frames

  /** What one run of the output callback does. */
  datatype BlockOutcome =
    | Rendered(frames: nat)  // frames copied into the output channels
    | StopEmitted            // the filter returned 0: 'stop' is emitted, nothing copied
    | FilterMissing          // no buffer was ever set: the call on the filter throws

  class AudioPlayer<T> {
    /** The script processor is connected through the gain node to the destination. */
    var connected: bool
    /** `this.samples`, allocated by setBuffer; null before that. */
    var samples: array?<Cell<T>>

    ghost predicate Valid()
      reads this
    {
      samples != null ==> samples.Length == 2 * BUFFER_SIZE
    }

    /** A new player: nothing attached, no buffer, no filter. */
    constructor ()
      ensures Valid() && !connected && samples == null
    {
      connected := false;
      samples := null;
    }

    /**
      setBuffer: allocates the filter's block of BUFFER_SIZE frames (a
      fresh Float32Array, all zeros); the filter built over the decoded
      buffer is external.
    */
    method SetBuffer()
      modifies this`samples
      ensures Valid() && samples != null && fresh(samples)
      ensures forall k :: 0 <= k < samples.Length ==> samples[k] == Zero
    {
      samples := new Cell<T>[2 * BUFFER_SIZE](_ => Zero);
    }

    /** play: attaches the processing chain to the output. */
    method Play()
      modifies this`connected
      ensures connected
    {
      connected := true;
    }

    /**
      pause: detaches the chain. Disconnecting nodes that are not connected
      throws in Web Audio; every caller pauses only a playing, hence
      connected, player.
    */
    method Pause()
      requires connected
      modifies this`connected
      ensures !connected
    {
      connected := false;
    }

    /**
      onaudioprocess for one output block: `left` and `right` are the two
      channels of the block (BUFFER_SIZE frames each). The external filter
      is asked for BUFFER_SIZE frames: it overwrites `samples` with
      `filtered` and returns `framesExtracted`. A count of 0 emits 'stop'
      and writes nothing; the callback never detaches itself. The fixed
      sizes keep every read of `samples` in bounds.
    */
    method OnAudioProcess(left: array<Cell<T>>, right: array<Cell<T>>,
                          filtered: seq<Cell<T>>, framesExtracted: nat)
      returns (outcome: BlockOutcome)
      requires Valid()
      requires left.Length == BUFFER_SIZE && right.Length == BUFFER_SIZE
      requires left != right && left != samples && right != samples
      requires |filtered| == 2 * BUFFER_SIZE && framesExtracted <= BUFFER_SIZE
      modifies left, right, samples
      ensures outcome == if samples == null then FilterMissing
                         else if framesExtracted == 0 then StopEmitted
                         else Rendered(framesExtracted)
      ensures samples != null ==>
        samples[..] == filtered &&
        left[..] == Overwrite(old(left[..]), Channel(filtered, framesExtracted, 0)) &&
        right[..] == Overwrite(old(right[..]), Channel(filtered, framesExtracted, 1))
      ensures !outcome.Rendered? ==> left[..] == old(left[..]) && right[..] == old(right[..])
    {
      if samples == null {
        return FilterMissing;
      }
      // the filter's extract(this.samples, BUFFER_SIZE)
      forall k | 0 <= k < samples.Length {
        samples[k] := filtered[k];
      }
      if framesExtracted == 0 {
        outcome := StopEmitted;
      } else {
        outcome := Rendered(framesExtracted);
      }
      Deinterleave(samples, framesExtracted, left, right);
    }
  }
}
