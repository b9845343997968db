# Browser pitch/tempo player: frame copying and transport, in Dafny

The player in `main.js` decodes a local audio file and streams it through an
external pitch/tempo filter (SoundTouch's `SimpleFilter`) to a Web Audio
script processor. This project models the two parts of `main.js` whose
behaviour can be stated and checked.

- **Frame copying** (`frames.dfy`, module `Frames`; `player.dfy`, module
  `Player`). The source's `extract` closure interleaves the two decoded
  channels into the filter's target block, as L, R pairs starting at the
  frame `position` the filter passes in. It returns
  `Math.min(numFrames, length - position)`. The output callback
  `onaudioprocess` does the reverse for the first `framesExtracted` frames
  of the filter's block `samples`. A count of 0 emits `stop`.
  Samples are only copied, so their type is a parameter `T`. Every buffer
  is a Float32Array, so an entry is a `Cell<T>`:
  - `Sample(v)` is a decoded sample;
  - `Zero` is the 0.0 of a freshly allocated array;
  - `NaN` is what the array stores when assigned `undefined`.
  The interleave loop always runs `numFrames` times. Frames past the end of
  a channel (or before its start) are therefore written as `NaN`, not
  clamped, and the returned count is negative when `position` exceeds the
  channel length. Writes past the end of a typed array are dropped, which
  `Overwrite` captures.
- **Transport** (`transport.dfy`, module `Transport`). Class `Session`
  holds the page's globals:
  - `audioPlayer` (null for undefined);
  - `isPlaying`;
  - `activeTimers`, the count of running `setInterval` timers;
  - `latestTimerLive`, whether the timer whose handle `myInterval` holds is
    one of them.
  Class `Player.AudioPlayer` holds `connected`, which stands for the
  play/pause wiring of the script processor through the gain node, and
  `samples`. The events are a file change (no file, decoded, decode
  failed), a play click and a pause click. Loading a file while playing
  pauses but never calls `clearInterval`, and a successful load starts a
  new interval. Timers therefore accumulate; `ReloadWhilePlaying` shows one
  left running while nothing plays.

The `extract` closure owns no cursor and never advances one: the filter
supplies `position` on every call. Past the end of the channels it writes
NaN for the missing frames and returns a negative count rather than 0.

## Model

| member | source | states |
|---|---|---|
| `Frames.ExtractCount` | main.js:66 | the count is at most `numFrames` and at most `length - position`, and equals one of them: their minimum, negative when `position > length` |
| `Frames.ExtractCountIsAvailable` | main.js:62-66 | for `0 <= position <= length` the count equals the number of requested frames that exist in the channel; for `position > length` no requested frame exists and the count is negative |
| `Frames.InterleaveAt` | main.js:62-65 | frame `i` of the interleaved block is at `2i` (left channel, index `position + i`) and `2i + 1` (right channel), NaN where the index is outside the channel |
| `Frames.ChannelAt` | main.js:17-20 | entry `i` of the deinterleaved left (right) channel is entry `2i` (`2i + 1`) of the block |
| `Frames.RoundTrip` | main.js:62-65 | deinterleaving the block interleaved from `position` gives back `l[position..position+n]` and `r[position..position+n]` when those frames exist |
| `Frames.ChannelOfPrefix` | main.js:17-20 | the deinterleave of `n` frames reads only the first `2n` entries of the block: two blocks agreeing there give the same channels |
| `Frames.RoundTripThroughTarget` | main.js:62-65 | in a target of at least `2n` entries, whatever it held before, deinterleaving `n` frames after `extract` wrote them from `position` gives back `l[position..position+n]` and `r[position..position+n]` |
| `Frames.Extract` | main.js:58-67 | the target becomes the interleaved block written over its old contents, with writes past its end dropped and every entry at index `>= 2*numFrames` unchanged; the result is `ExtractCount(numFrames, length, position)`; no cursor is kept |
| `Frames.Deinterleave` | main.js:17-20 | `left[i] = samples[2i]` and `right[i] = samples[2i+1]` for `i < framesExtracted`; every other output entry is unchanged |
| `Player.AudioPlayer.constructor` | main.js:4-32 | a new player is not connected and has no sample block |
| `Player.AudioPlayer.SetBuffer` | main.js:56 | allocates a fresh, zero-filled block of `2 * BUFFER_SIZE` entries |
| `Player.AudioPlayer.Play` | main.js:77-80 | the player is connected to the output |
| `Player.AudioPlayer.Pause` | main.js:83-86 | the player is disconnected; only a connected player is paused |
| `Player.AudioPlayer.OnAudioProcess` | main.js:10-21 | the filter call overwrites `samples` with the filter's block; with the fixed block sizes and `framesExtracted <= BUFFER_SIZE` every read is in bounds; count 0 signals stop and writes nothing; otherwise the first `framesExtracted` entries of each channel are deinterleaved and the rest unchanged; the player stays connected; with no buffer set the filter call fails and nothing is written |
| `Transport.Session.constructor` | main.js:110-114 | the page starts with no player, not playing and no timer |
| `Transport.Session.SetInterval` | main.js:149-151 | one more running timer, and `myInterval` now names it (the same statement recurs at main.js:174-176); the handle it replaces is lost without its timer being stopped |
| `Transport.Session.ClearInterval` | main.js:185 | stops the timer `myInterval` names only if it still runs (one fewer running timer); otherwise nothing changes; afterwards that handle names no running timer |
| `Transport.Session.OnFileChange` | main.js:117-157 | the previous player is dropped and left disconnected; its timer is not cleared; no file gives no player; a decoded file gives a fresh player that plays, with one more timer; a failed decode gives a fresh player that does not play and has no buffer |
| `Transport.Session.OnPlayClick` | main.js:169-178 | no effect without a player or while playing; otherwise playing and connected, with exactly one more timer |
| `Transport.Session.OnPauseClick` | main.js:180-187 | no effect unless playing; otherwise not playing and disconnected, with the timer `myInterval` names cleared |
| `Transport.ReloadWhilePlaying` | main.js:117-187 | load, load again while playing, then pause: nothing plays, yet one timer still runs |
| `Transport.PlayAfterDecodeFailure` | main.js:140-178 | after a failed decode the play click still plays the player, and its output callback finds no filter |

## Left out

- `seekPercent`, `durationVal` and `updateSeek` are not modelled. They are floating-point arithmetic over `duration * sampleRate` with `Math.round` and a fixed 48000 divisor.
- The pitch and tempo getters and setters are not modelled. They pass slider strings straight to the external filter.
- The SoundTouch `SimpleFilter` is not modelled: its cursor `sourcePosition`, how often it pulls, and its transformation.
- `Player.AudioPlayer.OnAudioProcess`: the filter call at main.js:13 overwrites `samples` inside the callback. The block it writes (`filtered`) and the count it returns (`framesExtracted`, at most `BUFFER_SIZE`) are parameters, so the model does not relate them to the decoded audio.
- Web Audio is not modelled: the context, script processor, gain node, `decodeAudioData` and the connect/disconnect internals. Connection is one boolean. The platform's calls to the callback while connected are not modelled either.
- Fetching the file, the `await` ordering and events arriving while a decode is pending are not modelled. Each event is one atomic step, and a decode outcome is an input.
- Timer callbacks and their timing are not modelled; only the count of running intervals is.
- The emitter is not modelled. It is a no-op on this page, so the `state` notification at the start of `extract` has no effect. `stop` is a result of `OnAudioProcess`.
- The audio thread and the UI thread are not modelled as concurrent.
- `Frames.Extract`: the closure's captured buffer is a parameter.
- `Frames.Extract`: a buffer with fewer than two channels is not modelled; there `getChannelData(1)` throws.
- `Frames.Extract`: samples are copied without conversion to 32-bit floats.
- `Frames.ExtractCountIsAvailable`: a negative `position` is not characterised. The model still writes NaN for such frames and returns `min(numFrames, length - position)`.
