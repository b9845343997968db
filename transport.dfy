/**
  The page's transport state (main.js): the current player, whether it is
  playing, and the once-a-second timers that refresh the seek slider.

  `activeTimers` counts the intervals still running; `latestTimerLive` says
  whether the one whose handle `myInterval` holds is among them. Loading a
  file while playing pauses without clearInterval, and the next load or
  play overwrites the handle, so timers can accumulate.
*/
module Transport {
  import opened Player
  import Frames

  /** The outcome of a change of the file input. */
  datatype FileEvent =
    | NoFile        // the selection is empty
    | Decoded       // the file is read and decoded; the player gets its buffer
    | DecodeFailed  // reading or decoding throws; the error is only logged

  class Session<T> {
    /** `audioPlayer`: null stands for undefined. */
    var audioPlayer: AudioPlayer?<T>
    /** `isPlaying` */
    var isPlaying: bool
    /** Intervals started by setInterval and not yet cleared. */
    var activeTimers: nat
    /** The interval whose handle `myInterval` holds is still running. */
    var latestTimerLive: bool

    /**
      Playing means a player exists and is connected, and the latest timer
      runs; a player that is not playing is detached.
    */
    ghost predicate Valid()
      reads this, audioPlayer
    {
      (audioPlayer == null ==> !isPlaying) &&
      (audioPlayer != null ==> audioPlayer.Valid() && audioPlayer.connected == isPlaying) &&
      (isPlaying ==> latestTimerLive) &&
      (latestTimerLive ==> activeTimers >= 1)
    }

    /** The page as loaded: no player, not playing, no timer. */
    constructor ()
      ensures Valid() && audioPlayer == null && !isPlaying
      ensures activeTimers == 0 && !latestTimerLive
    {
      audioPlayer := null;
      isPlaying := false;
      activeTimers := 0;
      latestTimerLive := false;
    }

    /** `myInterval = setInterval(...)`: one more timer, and the handle now names it. */
    method SetInterval()
      modifies this`activeTimers, this`latestTimerLive
      ensures activeTimers == old(activeTimers) + 1 && latestTimerLive
    {
      activeTimers := activeTimers + 1;
      latestTimerLive := true;
    }

    /** `clearInterval(myInterval)`: stops that timer if it still runs. */
    method ClearInterval()
      requires latestTimerLive ==> activeTimers >= 1
      modifies this`activeTimers, this`latestTimerLive
      ensures !latestTimerLive
      ensures activeTimers == if old(latestTimerLive) then old(activeTimers) - 1 else old(activeTimers)
    {
      if latestTimerLive {
        activeTimers := activeTimers - 1;
        latestTimerLive := false;
      }
    }

    /**
      The file input's change handler. The previous player is always
      dropped, paused first if it was playing, but its timer is not
      cleared. No file: no player. A decoded file: a new player that plays,
      with one more timer. A failed decode: a new player that does not play.
    */
    method OnFileChange(ev: FileEvent)
      requires Valid()
      modifies this, audioPlayer
      ensures Valid()
      ensures old(audioPlayer) != null ==> !old(audioPlayer).connected
      ensures ev.NoFile? ==> audioPlayer == null
      ensures !ev.NoFile? ==> audioPlayer != null && fresh(audioPlayer)
      ensures isPlaying <==> ev.Decoded?
      ensures ev.Decoded? ==> audioPlayer.samples != null
      ensures ev.DecodeFailed? ==> audioPlayer.samples == null
      ensures activeTimers == if ev.Decoded? then old(activeTimers) + 1 else old(activeTimers)
      ensures latestTimerLive == (ev.Decoded? || old(latestTimerLive))
    {
      if audioPlayer != null {
        if isPlaying {
          audioPlayer.Pause();
          isPlaying := false;
          audioPlayer := null;
        } else {
          audioPlayer := null;
        }
      }
      if ev.NoFile? {
        return;
      }
      var player := new AudioPlayer<T>();
      audioPlayer := player;
      if ev.Decoded? {
        player.SetBuffer();
        player.Play();
        isPlaying := true;
        SetInterval();
      }
    }

    /**
      The play button: nothing without a player or while playing; otherwise
      attach, mark playing and start one timer.
    */
    method OnPlayClick()
      requires Valid()
      modifies this, audioPlayer
      ensures Valid() && audioPlayer == old(audioPlayer)
      ensures audioPlayer != null ==> audioPlayer.samples == old(audioPlayer.samples)
      ensures old(audioPlayer) == null || old(isPlaying) ==>
        isPlaying == old(isPlaying) && activeTimers == old(activeTimers) &&
        latestTimerLive == old(latestTimerLive)
      ensures old(audioPlayer) != null && !old(isPlaying) ==>
        isPlaying && activeTimers == old(activeTimers) + 1 && latestTimerLive
    {
      if audioPlayer == null {
        return;
      }
      if !isPlaying {
        audioPlayer.Play();
        isPlaying := true;
        SetInterval();
      }
    }

    /**
      The pause button: nothing unless playing; otherwise detach, mark not
      playing and clear the timer `myInterval` names.
    */
    method OnPauseClick()
      requires Valid()
      modifies this, audioPlayer
      ensures Valid() && audioPlayer == old(audioPlayer)
      ensures audioPlayer != null ==> audioPlayer.samples == old(audioPlayer.samples)
      ensures !old(isPlaying) ==>
        isPlaying == old(isPlaying) && activeTimers == old(activeTimers) &&
        latestTimerLive == old(latestTimerLive)
      ensures old(isPlaying) ==>
        !isPlaying && activeTimers == old(activeTimers) - 1 && !latestTimerLive
    {
      if audioPlayer == null {
        return;
      }
      if isPlaying {
        audioPlayer.Pause();
        isPlaying := false;
        ClearInterval();
      }
    }
  }

  /**
    Loading a second file while the first plays, then pausing, leaves the
    first file's timer running with nothing playing.
  */
  method ReloadWhilePlaying() returns (timers: nat, playing: bool)
    ensures !playing && timers == 1
  {
    var page := new Session<int>();
    page.OnFileChange(Decoded);
    page.OnFileChange(Decoded);
    page.OnPauseClick();
    timers, playing := page.activeTimers, page.isPlaying;
  }

  /**
    After a failed decode the play button still plays the new player, and
    its output callback then finds no filter to call.
  */
  method PlayAfterDecodeFailure() returns (playing: bool, outcome: BlockOutcome)
    ensures playing && outcome == FilterMissing
  {
    var page := new Session<int>();
    page.OnFileChange(DecodeFailed);
    page.OnPlayClick();
    var left := new Frames.Cell<int>[Frames.BUFFER_SIZE](_ => Frames.Zero);
    var right := new Frames.Cell<int>[Frames.BUFFER_SIZE](_ => Frames.Zero);
    playing := page.isPlaying;
    outcome := page.audioPlayer.OnAudioProcess(left, right, seq(2 * Frames.BUFFER_SIZE, _ => Frames.Zero), 0);
  }
}
