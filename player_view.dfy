/**
 * The playlist-maintenance and transport layer of `JcPlayerView`: numbering a
 * playlist once, generating default titles, adding, removing and playing
 * audios on the manager's live list, and the commands the view's buttons,
 * seek bar and completion callback send to the manager.
 */
module PlayerView {
  import opened Wrappers
  import opened Decimal
  import opened Playlist
  import opened PlayerManager

  /** The view's clickable controls; any other id is the repeat control. */
  datatype Button = PlayButton | PauseButton | NextButton | PreviousButton | RepeatButton

  /**
   * The title given to the audio at index `i`. When `title` is the track-number
   * template, it is the template followed by a space and the 1-based number;
   * otherwise it is `title` itself.
   */
  function TrackTitle(template: string, title: string, i: nat): (r: string)
    ensures title == template ==>
      |r| > |template| + 1 && r[..|template| + 1] == template + " " &&
      IsDigits(r[|template| + 1..]) && ParseDecimal(r[|template| + 1..]) == i + 1 &&
      r[|template| + 1] != '0'
    ensures title != template ==> r == title
  {
    if title == template then
      var r := template + " " + DecimalString(i + 1);
      assert r[|template| + 1..] == DecimalString(i + 1);
      assert r[|template| + 1] == DecimalString(i + 1)[0];
      ParseDecimalString(i + 1);
      r
    else title
  }

  /** Numbered titles of different indices differ. */
  lemma NumberedTitlesDistinct(template: string, i: nat, j: nat)
    requires i != j
    ensures TrackTitle(template, template, i) != TrackTitle(template, template, j)
  {
    var ri, rj := TrackTitle(template, template, i), TrackTitle(template, template, j);
    if |ri| == |rj| {
      assert ParseDecimal(ri[|template| + 1..]) != ParseDecimal(rj[|template| + 1..]);
    }
  }

  /**
   * The `catch (e: AudioListNullPointerException)` around a manager command:
   * that exception is absorbed, any other one leaves the view's method.
   */
  function CatchAudioListNull(outcome: Outcome<ManagerError>): (r: Outcome<ManagerError>)
    ensures r.Fail? <==> outcome.Fail? && outcome.error != AudioListNullPointer
    ensures r.Fail? ==> r == outcome
  {
    match outcome
    case Fail(AudioListNullPointer) => Pass
    case _ => outcome
  }

  /** Every audio of `s` carries as its position the index where it was last numbered. */
  ghost predicate NumberedByIndex(s: seq<Audio>)
    reads s
  {
    forall i :: 0 <= i < |s| ==> s[i].position == Some(LastIndex(s, s[i]))
  }

  /** Every audio of `s` carries the title generated for the index where it was last titled. */
  ghost predicate TitledByIndex(s: seq<Audio>, template: string, title: string)
    reads s
  {
    forall i :: 0 <= i < |s| ==> s[i].title == TrackTitle(template, title, LastIndex(s, s[i]))
  }

  class View {
    const manager: Manager
    /** The text of the `track_number` string resource. */
    const trackNumber: string

    constructor (manager: Manager, trackNumber: string)
      ensures this.manager == manager && this.trackNumber == trackNumber
    {
      this.manager := manager;
      this.trackNumber := trackNumber;
    }

    /**
     * `isAlreadySorted`: only the first audio is inspected; a position other than
     * -1, a missing one included, counts as sorted.
     */
    function IsAlreadySorted(playlist: seq<Audio>): (sorted: bool)
      requires |playlist| > 0
      reads playlist
      ensures playlist[0].position.None? ==> sorted
      ensures playlist[0].position.Some? && playlist[0].position.value != Unassigned ==> sorted
      ensures !sorted ==> playlist[0].position == Some(Unassigned)
    {
      playlist[0].position != Some(Unassigned)
    }

    /** A numbered playlist is already sorted, so numbering it is done at most once. */
    lemma NumberedIsAlreadySorted(playlist: seq<Audio>)
      requires |playlist| > 0 && NumberedByIndex(playlist)
      ensures IsAlreadySorted(playlist)
    {
      assert playlist[0].position == Some(LastIndex(playlist, playlist[0]));
    }

    /** `sortPlaylist`: writes each audio's index into its position. */
    method SortPlaylist(playlist: seq<Audio>)
      modifies playlist
      ensures NumberedByIndex(playlist)
      ensures NoAliases(playlist) ==> forall i :: 0 <= i < |playlist| ==> playlist[i].position == Some(i)
      ensures forall k :: 0 <= k < |playlist| ==> playlist[k].title == old(playlist[k].title)
    {
      ghost var titles := seq(|playlist|, k requires 0 <= k < |playlist| reads playlist => playlist[k].title);
      for i := 0 to |playlist|
        invariant forall k :: 0 <= k < i ==>
          playlist[k] in playlist[..i] && playlist[k].position == Some(LastIndex(playlist[..i], playlist[k]))
        invariant forall k :: 0 <= k < |playlist| ==> playlist[k].title == titles[k]
      {
        LastIndexStep(playlist, i);
        playlist[i].position := Some(i);
      }
      assert playlist[..|playlist|] == playlist;
      if NoAliases(playlist) {
        forall i | 0 <= i < |playlist| ensures playlist[i].position == Some(i) {
          LastIndexNoAliases(playlist, i);
        }
      }
    }

    /** `generateTitleAudio`: gives every audio the title generated for its index. */
    method GenerateTitleAudio(playlist: seq<Audio>, title: string)
      modifies playlist
      ensures TitledByIndex(playlist, trackNumber, title)
      ensures title != trackNumber ==> forall k :: 0 <= k < |playlist| ==> playlist[k].title == title
      ensures forall k :: 0 <= k < |playlist| ==> playlist[k].position == old(playlist[k].position)
    {
      ghost var positions := seq(|playlist|, k requires 0 <= k < |playlist| reads playlist => playlist[k].position);
      for i := 0 to |playlist|
        invariant forall k :: 0 <= k < i ==>
          playlist[k] in playlist[..i] &&
          playlist[k].title == TrackTitle(trackNumber, title, LastIndex(playlist[..i], playlist[k]))
        invariant forall k :: 0 <= k < |playlist| ==> playlist[k].position == positions[k]
      {
        LastIndexStep(playlist, i);
        playlist[i].title := TrackTitle(trackNumber, title, i);
      }
      assert playlist[..|playlist|] == playlist;
    }

    /**
     * `initPlaylist`: numbers the audios unless the first one already has a
     * position, then hands the list to the manager; the view ends up as the
     * manager's listener. An empty list makes the source throw on `it[0]`.
     */
    method InitPlaylist(playlist: seq<Audio>, listener: Option<Listener>)
      requires |playlist| > 0
      modifies playlist, manager`playlist, manager`listener
      ensures old(playlist[0].position) == Some(Unassigned) ==> NumberedByIndex(playlist)
      ensures old(playlist[0].position) == Some(Unassigned) && NoAliases(playlist) ==>
        forall i :: 0 <= i < |playlist| ==> playlist[i].position == Some(i)
      ensures old(playlist[0].position) == Some(Unassigned) && DistinctKeys(playlist) ==>
        forall i :: 0 <= i < |playlist| ==> playlist[i].position == Some(i)
      ensures old(playlist[0].position) != Some(Unassigned) ==>
        forall k :: 0 <= k < |playlist| ==> playlist[k].position == old(playlist[k].position)
      ensures forall k :: 0 <= k < |playlist| ==> playlist[k].title == old(playlist[k].title)
      ensures manager.playlist == playlist
      ensures manager.listener == Some(ViewListener)
    {
      if !IsAlreadySorted(playlist) {
        SortPlaylist(playlist);
      }
      if DistinctKeys(playlist) {
        DistinctKeysNoAliases(playlist);
      }
      manager.playlist := playlist;
      manager.listener := listener;
      manager.listener := Some(ViewListener);
    }

    /** `initAnonPlaylist`: numbered "track number" titles, then `initPlaylist`. */
    method InitAnonPlaylist(playlist: seq<Audio>)
      requires |playlist| > 0
      modifies playlist, manager`playlist, manager`listener
      ensures TitledByIndex(playlist, trackNumber, trackNumber)
      ensures NoAliases(playlist) ==>
        forall i :: 0 <= i < |playlist| ==> playlist[i].title == TrackTitle(trackNumber, trackNumber, i)
      ensures old(playlist[0].position) == Some(Unassigned) ==> NumberedByIndex(playlist)
      ensures old(playlist[0].position) != Some(Unassigned) ==>
        forall k :: 0 <= k < |playlist| ==> playlist[k].position == old(playlist[k].position)
      ensures manager.playlist == playlist
      ensures manager.listener == Some(ViewListener)
    {
      GenerateTitleAudio(playlist, trackNumber);
      InitPlaylist(playlist, None);
      if NoAliases(playlist) {
        forall i | 0 <= i < |playlist| ensures playlist[i].title == TrackTitle(trackNumber, trackNumber, i) {
          LastIndexNoAliases(playlist, i);
        }
      }
    }

    /** `initWithTitlePlaylist`: one title for every audio, then `initPlaylist`. */
    method InitWithTitlePlaylist(playlist: seq<Audio>, title: string)
      requires |playlist| > 0
      modifies playlist, manager`playlist, manager`listener
      ensures TitledByIndex(playlist, trackNumber, title)
      ensures title != trackNumber ==> forall k :: 0 <= k < |playlist| ==> playlist[k].title == title
      ensures old(playlist[0].position) == Some(Unassigned) ==> NumberedByIndex(playlist)
      ensures old(playlist[0].position) != Some(Unassigned) ==>
        forall k :: 0 <= k < |playlist| ==> playlist[k].position == old(playlist[k].position)
      ensures manager.playlist == playlist
      ensures manager.listener == Some(ViewListener)
    {
      GenerateTitleAudio(playlist, title);
      InitPlaylist(playlist, None);
    }

    /**
     * `addAudio`: sets the audio's position to the old length plus one, appends
     * it unless an equal audio is already there, and returns that position.
     */
    method AddAudio(a: Audio) returns (r: int)
      modifies a`position, manager`playlist
      ensures r == |old(manager.playlist)| + 1
      ensures a.position == Some(r)
      ensures manager.playlist == AddIfAbsent(old(manager.playlist), a)
      ensures DistinctKeys(old(manager.playlist)) ==> DistinctKeys(manager.playlist)
    {
      var lastPosition := |manager.playlist|;
      a.position := Some(lastPosition + 1);
      if !Contains(manager.playlist, a) {
        manager.playlist := manager.playlist[..lastPosition] + [a] + manager.playlist[lastPosition..];
      }
      assert manager.playlist == AddIfAbsent(old(manager.playlist), a);
      if DistinctKeys(old(manager.playlist)) {
        AddIfAbsentKeepsDistinct(old(manager.playlist), a);
      }
      r := a.position.value;
    }

    /**
     * `removeAudio`: removes the first audio equal to `a`, if any. It pauses
     * when that left the list empty, or when the removed audio was the current
     * one while playing.
     */
    method RemoveAudio(a: Audio)
      modifies manager`playlist, manager`log
      ensures manager.playlist == RemoveFirst(old(manager.playlist), a)
      ensures !Contains(old(manager.playlist), a) ==> manager.playlist == old(manager.playlist)
      ensures Contains(old(manager.playlist), a) ==> |manager.playlist| == |old(manager.playlist)| - 1
      ensures manager.log == old(manager.log) +
        if Contains(old(manager.playlist), a) &&
           (|old(manager.playlist)| == 1 ||
            (manager.isPlaying && manager.currentAudio != null && manager.currentAudio.key == a.key))
        then [Command.Pause] else []
      ensures DistinctKeys(old(manager.playlist)) ==>
        DistinctKeys(manager.playlist) && !Contains(manager.playlist, a)
    {
      var list := manager.playlist;
      if Contains(list, a) {
        if |list| > 1 {
          if manager.isPlaying {
            if manager.currentAudio != null && manager.currentAudio.key == a.key {
              manager.playlist := RemoveFirst(list, a);
              Pause();
            } else {
              manager.playlist := RemoveFirst(list, a);
            }
          } else {
            manager.playlist := RemoveFirst(list, a);
          }
        } else {
          manager.playlist := RemoveFirst(list, a);
          Pause();
        }
      }
      RemoveFirstAt(list, a);
      if DistinctKeys(list) {
        RemoveFirstKeepsDistinct(list, a);
      }
    }

    /** `playAudio`: appends the audio unless it is there, then asks the manager to play it. */
    method PlayAudio(a: Audio)
      modifies manager`playlist, manager`log
      ensures manager.playlist == AddIfAbsent(old(manager.playlist), a)
      ensures Contains(manager.playlist, a)
      ensures manager.log == old(manager.log) + [Command.Play(a)]
      ensures DistinctKeys(old(manager.playlist)) ==> DistinctKeys(manager.playlist)
    {
      if !Contains(manager.playlist, a) {
        manager.playlist := manager.playlist + [a];
      }
      if DistinctKeys(old(manager.playlist)) {
        AddIfAbsentKeepsDistinct(old(manager.playlist), a);
      }
      manager.PlayAudio(a);
    }

    /** `pause`. */
    method Pause()
      modifies manager`log
      ensures manager.log == old(manager.log) + [Command.Pause]
    {
      manager.PauseAudio();
    }

    /**
     * `continueAudio`: asks the manager to continue. An
     * `AudioListNullPointerException` is caught; any other exception is passed on.
     */
    method ContinueAudio(outcome: Outcome<ManagerError>) returns (r: Outcome<ManagerError>)
      modifies manager`log
      ensures manager.log == old(manager.log) + [Command.Continue]
      ensures r == CatchAudioListNull(outcome)
    {
      r := manager.ContinueAudio(outcome);
      r := CatchAudioListNull(r);
    }

    /**
     * `next`: asks the manager for the next audio only when there is a current
     * one, catching an `AudioListNullPointerException` only.
     */
    method Next(outcome: Outcome<ManagerError>) returns (r: Outcome<ManagerError>)
      modifies manager`log
      ensures manager.log == old(manager.log) + if manager.currentAudio != null then [Command.Next] else []
      ensures r == if manager.currentAudio != null then CatchAudioListNull(outcome) else Pass
    {
      r := Pass;
      if manager.currentAudio != null {
        r := manager.NextAudio(outcome);
        r := CatchAudioListNull(r);
      }
    }

    /**
     * `previous`: asks the manager for the previous audio, with or without a
     * current one, catching an `AudioListNullPointerException` only.
     */
    method Previous(outcome: Outcome<ManagerError>) returns (r: Outcome<ManagerError>)
      modifies manager`log
      ensures manager.log == old(manager.log) + [Command.Previous]
      ensures r == CatchAudioListNull(outcome)
    {
      r := manager.PreviousAudio(outcome);
      r := CatchAudioListNull(r);
    }

    /** `onClick`: the command each control sends, and the exception that escapes it. */
    method OnClick(button: Button, outcome: Outcome<ManagerError>) returns (r: Outcome<ManagerError>)
      modifies manager`log
      ensures manager.log == old(manager.log) +
        match button
        case PlayButton => [Command.Continue]
        case PauseButton => [Command.Pause]
        case NextButton => if manager.currentAudio != null then [Command.Next] else []
        case PreviousButton => [Command.Previous]
        case RepeatButton => [Command.Repeat]
      ensures r == match button
        case PlayButton | PreviousButton => CatchAudioListNull(outcome)
        case NextButton => if manager.currentAudio != null then CatchAudioListNull(outcome) else Pass
        case PauseButton | RepeatButton => Pass
    {
      r := Pass;
      match button
      case PlayButton => r := ContinueAudio(outcome);
      case PauseButton => Pause();
      case NextButton => r := Next(outcome);
      case PreviousButton => r := Previous(outcome);
      case RepeatButton => manager.ActiveRepeat();
    }

    /** `onProgressChanged`: seeks only when the user moved the bar. */
    method OnProgressChanged(progress: int, fromUser: bool)
      modifies manager`log
      ensures manager.log == old(manager.log) + if fromUser then [Command.Seek(progress)] else []
    {
      if fromUser {
        manager.SeekTo(progress);
      }
    }

    /** `onCompletedAudio`: always asks for the next audio; every exception is caught. */
    method OnCompletedAudio(outcome: Outcome<ManagerError>)
      modifies manager`log
      ensures manager.log == old(manager.log) + [Command.Next]
    {
      var thrown := manager.NextAudio(outcome);
    }
  }
}
