/**
 * A stand-in for `JcPlayerManager`, whose code is not part of this model.
 *
 * The view reads the manager's playlist, its playing flag and its current
 * audio, writes its playlist and listener, and calls its transport commands.
 * Here every command only records itself in a ghost log, so that what the view
 * asks of the manager can be stated; what the manager then does is left open.
 */
module PlayerManager {
  import opened Wrappers
  import opened Playlist

  /** A transport command issued to the manager. */
  datatype Command =
    | Pause
    | Play(audio: Audio)
    | Continue
    | Next
    | Previous
    | Seek(offset: int)
    | Repeat

  /** The observer the manager reports playback events to. */
  datatype Listener = ViewListener | External(id: nat)

  /**
   * An exception the manager's navigation commands may throw:
   * `AudioListNullPointerException`, or any other one.
   */
  datatype ManagerError = AudioListNullPointer | OtherException

  class Manager {
    var playlist: seq<Audio>
    var isPlaying: bool
    var currentAudio: Audio?
    var listener: Option<Listener>
    ghost var log: seq<Command>

    constructor (playlist: seq<Audio>, isPlaying: bool, currentAudio: Audio?)
      ensures this.playlist == playlist && this.isPlaying == isPlaying
      ensures this.currentAudio == currentAudio
      ensures listener == None && log == []
    {
      this.playlist := playlist;
      this.isPlaying := isPlaying;
      this.currentAudio := currentAudio;
      listener := None;
      log := [];
    }

    /** `pauseAudio()`. */
    method PauseAudio()
      modifies this`log
      ensures log == old(log) + [Pause]
    {
      log := log + [Pause];
    }

    /** `playAudio(jcAudio)`. */
    method PlayAudio(a: Audio)
      modifies this`log
      ensures log == old(log) + [Play(a)]
    {
      log := log + [Play(a)];
    }

    /** `seekTo(time)`. */
    method SeekTo(offset: int)
      modifies this`log
      ensures log == old(log) + [Seek(offset)]
    {
      log := log + [Seek(offset)];
    }

    /** `activeRepeat()`. */
    method ActiveRepeat()
      modifies this`log
      ensures log == old(log) + [Repeat]
    {
      log := log + [Repeat];
    }

    /**
     * `continueAudio()`, `nextAudio()` and `previousAudio()` may throw; whether
     * and what they throw is decided by code outside this model and arrives as
     * `outcome`, which they pass on.
     */
    method ContinueAudio(outcome: Outcome<ManagerError>) returns (r: Outcome<ManagerError>)
      modifies this`log
      ensures log == old(log) + [Continue]
      ensures r == outcome
    {
      log := log + [Continue];
      r := outcome;
    }

    method NextAudio(outcome: Outcome<ManagerError>) returns (r: Outcome<ManagerError>)
      modifies this`log
      ensures log == old(log) + [Next]
      ensures r == outcome
    {
      log := log + [Next];
      r := outcome;
    }

    method PreviousAudio(outcome: Outcome<ManagerError>) returns (r: Outcome<ManagerError>)
      modifies this`log
      ensures log == old(log) + [Previous]
      ensures r == outcome
    {
      log := log + [Previous];
      r := outcome;
    }
  }
}
