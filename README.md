# JcPlayerView playlist layer, modelled in Dafny

This project models the playlist-maintenance and transport layer of
`JcPlayerView`, the Android view of the JcPlayer audio player. The view owns no
playback state of its own. It works on the playlist held by `JcPlayerManager`
and forwards transport commands to that manager.

- **Audio records.** A `JcAudio` is a mutable object with a `title` and a
  nullable `position`, where -1 means "not numbered yet". `Playlist.Audio` is a
  class with those two fields. `JcAudio`'s equality, which `contains` and
  `remove` use, is not shown in the source. It is modelled as equality of a
  fixed identity `key`.
- **List operations.** `Playlist` holds the list operations the view calls on
  the manager's `ArrayList`: `contains`, appending if absent, and
  `remove(Object)`, which drops the first equal element. It also holds lemmas
  about them: no duplicates are introduced, the other elements stay, and
  removing an item just added gives the list back.
- **Manager.** `PlayerManager.Manager` stands in for `JcPlayerManager`, whose
  code is not part of this model. It has the fields the view reads and writes
  (`playlist`, `isPlaying`, `currentAudio`, `listener`) and a ghost log of the
  transport commands it receives.
- **View.** `PlayerView.View` holds the view's operations:
  - Number a playlist once: `sortPlaylist`, `isAlreadySorted`, `initPlaylist`.
  - Generate default titles: numbered "track number" titles, or one fixed title.
  - Add, remove and play audios on the manager's live list.
  - Map buttons, the seek bar and the completion callback to manager commands.

`sortPlaylist` and `generateTitleAudio` are loops that overwrite fields of
list elements in place, so they are methods with loop invariants. The same
object may occur twice in a list. When it does, the write made for its last
index is the one that sticks. The contracts say this through
`Playlist.LastIndex`. When no object occurs twice, they say plainly that
element `i` gets position `i` and the title for index `i`.

Some of what the code does is easy to misread:
- `addAudio` gives the new audio position `size + 1`, not `size`.
- `removeAudio` on a list of more than one item pauses only when the manager is
  playing and the removed audio is the current one.
- Sorting is decided by the first audio alone. Later unnumbered audios are left
  as they are when the first one has a position.
- `next` does nothing without a current audio. `previous` and `continueAudio`
  always ask the manager.
- `next`, `continueAudio` and `previous` catch only
  `AudioListNullPointerException`. Any other exception the manager throws leaves
  the view's method. `onCompletedAudio` catches every exception.

Two calls take extra parameters in the model:
- The text of the `track_number` string resource is the view's constant
  `trackNumber`.
- Whether the manager's `continueAudio`, `nextAudio` or `previousAudio` throws,
  and what, is decided by code outside this model. It is passed in as the
  `outcome` parameter. The view's `continueAudio`, `next`, `previous` and
  `onClick` return the exception that escapes them, if any.

## Model

| member | source | states |
|---|---|---|
| `Decimal.DecimalString` | player/src/main/java/com/example/jean/jcplayer/view/JcPlayerView.kt:468 | `(i + 1).toString()`: a non-empty string of decimal digits that starts with '0' exactly when the number is 0, one digit exactly below 10 |
| `Decimal.ParseDecimalString` | player/src/main/java/com/example/jean/jcplayer/view/JcPlayerView.kt:468 | reading back the digits written for `n` gives `n` (round trip) |
| `Decimal.DecimalStringInjective` | player/src/main/java/com/example/jean/jcplayer/view/JcPlayerView.kt:468 | different numbers are written as different strings |
| `Playlist.Contains` | player/src/main/java/com/example/jean/jcplayer/view/JcPlayerView.kt:166 | `contains` holds for the very object being looked up whenever it is in the list, and never for an empty list |
| `Playlist.FirstIndex` | player/src/main/java/com/example/jean/jcplayer/view/JcPlayerView.kt:181 | `contains`: there is a first index holding an equal audio exactly when the list contains one, and no earlier index holds one |
| `Playlist.RemoveFirst` | player/src/main/java/com/example/jean/jcplayer/view/JcPlayerView.kt:186-196 | `remove(jcAudio)` shortens the list by exactly one when an equal audio is present, and leaves its length otherwise |
| `Playlist.RemoveFirstAt` | player/src/main/java/com/example/jean/jcplayer/view/JcPlayerView.kt:186-196 | the list after `remove` is the elements before the first equal audio followed by those after it, in order; without an equal audio it is unchanged |
| `Playlist.RemoveFirstElement` | player/src/main/java/com/example/jean/jcplayer/view/JcPlayerView.kt:186-196 | every element left after `remove` was in the list before |
| `Playlist.RemoveFirstKeepsDistinct` | player/src/main/java/com/example/jean/jcplayer/view/JcPlayerView.kt:179-201 | in a list without duplicates, removing an audio leaves no duplicate and no audio equal to it |
| `Playlist.RemoveFirstKeepsOthers` | player/src/main/java/com/example/jean/jcplayer/view/JcPlayerView.kt:179-201 | removing an audio keeps every audio not equal to it: such an audio is contained afterwards exactly when it was before |
| `Playlist.AddIfAbsent` | player/src/main/java/com/example/jean/jcplayer/view/JcPlayerView.kt:166-168 | append-if-absent: the result contains the audio, extends the old list, and grew by one exactly when the audio was absent |
| `Playlist.AddIfAbsentIdempotent` | player/src/main/java/com/example/jean/jcplayer/view/JcPlayerView.kt:166-168 | adding the same audio a second time changes nothing |
| `Playlist.AddIfAbsentKeepsDistinct` | player/src/main/java/com/example/jean/jcplayer/view/JcPlayerView.kt:166-168 | adding never introduces a duplicate into a list without duplicates |
| `Playlist.RemoveAfterAdd` | player/src/main/java/com/example/jean/jcplayer/view/JcPlayerView.kt:161-201 | adding an absent audio and then removing it gives the original list back |
| `Playlist.LastIndex` | player/src/main/java/com/example/jean/jcplayer/view/JcPlayerView.kt:441-444 | the last index of an object in a list: it holds the object and no later index does; this is the index whose write survives an in-place loop |
| `Playlist.LastIndexStep` | player/src/main/java/com/example/jean/jcplayer/view/JcPlayerView.kt:441-444 | one loop step writing index `i` moves the last index of the object at `i` to `i` and of no other object |
| `Playlist.LastIndexNoAliases` | player/src/main/java/com/example/jean/jcplayer/view/JcPlayerView.kt:441-444 | when no object occurs twice, an element's last index is its own index |
| `PlayerView.TrackTitle` | player/src/main/java/com/example/jean/jcplayer/view/JcPlayerView.kt:467-471 | the title for index `i`: with the track-number template, the template, a space, then digits with no leading zero that read as `i + 1`; otherwise the given title |
| `PlayerView.CatchAudioListNull` | player/src/main/java/com/example/jean/jcplayer/view/JcPlayerView.kt:244-249 | the `catch (e: AudioListNullPointerException)` clause: that exception is absorbed, any other one escapes unchanged |
| `PlayerView.NumberedTitlesDistinct` | player/src/main/java/com/example/jean/jcplayer/view/JcPlayerView.kt:468 | numbered titles of different indices differ |
| `PlayerView.View.IsAlreadySorted` | player/src/main/java/com/example/jean/jcplayer/view/JcPlayerView.kt:455-458 | a missing first position, or any first position other than -1, counts as sorted; only -1 in the first audio means unsorted |
| `PlayerView.View.NumberedIsAlreadySorted` | player/src/main/java/com/example/jean/jcplayer/view/JcPlayerView.kt:455-458 | a numbered playlist counts as already sorted, so a second `initPlaylist` does not renumber it |
| `PlayerView.View.SortPlaylist` | player/src/main/java/com/example/jean/jcplayer/view/JcPlayerView.kt:440-445 | each audio's position is the index of its last occurrence; with no object twice, element `i` has position `i`; titles are unchanged |
| `PlayerView.View.GenerateTitleAudio` | player/src/main/java/com/example/jean/jcplayer/view/JcPlayerView.kt:465-473 | each audio has the `TrackTitle` of its last index (numbered or fixed mode); in fixed mode every title equals the given one; positions are unchanged |
| `PlayerView.View.InitPlaylist` | player/src/main/java/com/example/jean/jcplayer/view/JcPlayerView.kt:120-131 | when the first audio's position was -1, all audios are numbered by index, and element `i` gets position `i` when no two audios are equal; otherwise no position changes; titles are unchanged; the manager's playlist becomes the given list; the view is the manager's final listener |
| `PlayerView.View.InitAnonPlaylist` | player/src/main/java/com/example/jean/jcplayer/view/JcPlayerView.kt:138-141 | every audio gets the numbered track title of its index, then the sort-once rule of `InitPlaylist` applies |
| `PlayerView.View.InitWithTitlePlaylist` | player/src/main/java/com/example/jean/jcplayer/view/JcPlayerView.kt:149-152 | every audio gets the given title (numbered titles if it is the template), then the sort-once rule of `InitPlaylist` applies |
| `PlayerView.View.AddAudio` | player/src/main/java/com/example/jean/jcplayer/view/JcPlayerView.kt:161-172 | returns the old length plus one and stores it as the audio's position; the list becomes append-if-absent of the old list; no duplicate is introduced |
| `PlayerView.View.RemoveAudio` | player/src/main/java/com/example/jean/jcplayer/view/JcPlayerView.kt:179-201 | the first equal audio is removed, the others keep their order, and an absent audio changes nothing; `Pause` is issued exactly when the audio was present and the list had one item or the manager was playing it; without duplicates, none is left |
| `PlayerView.View.PlayAudio` | player/src/main/java/com/example/jean/jcplayer/view/JcPlayerView.kt:207-218 | the audio is contained afterwards and was appended only if absent; exactly one `Play(a)` is issued |
| `PlayerView.View.Pause` | player/src/main/java/com/example/jean/jcplayer/view/JcPlayerView.kt:273-276 | issues exactly one `Pause` |
| `PlayerView.View.ContinueAudio` | player/src/main/java/com/example/jean/jcplayer/view/JcPlayerView.kt:258-267 | issues exactly one `Continue`; an `AudioListNullPointerException` is caught and any other exception escapes; nothing else changes |
| `PlayerView.View.Next` | player/src/main/java/com/example/jean/jcplayer/view/JcPlayerView.kt:239-252 | issues `Next` exactly when there is a current audio; an `AudioListNullPointerException` is caught and any other exception escapes; nothing else changes |
| `PlayerView.View.Previous` | player/src/main/java/com/example/jean/jcplayer/view/JcPlayerView.kt:283-293 | issues `Previous` unconditionally; an `AudioListNullPointerException` is caught and any other exception escapes |
| `PlayerView.View.OnClick` | player/src/main/java/com/example/jean/jcplayer/view/JcPlayerView.kt:295-336 | each control sends its command: play continues, pause pauses, next is guarded by a current audio, previous, any other control toggles repeat; play, next and previous pass on what escapes the matching view method, the others throw nothing |
| `PlayerView.View.OnProgressChanged` | player/src/main/java/com/example/jean/jcplayer/view/JcPlayerView.kt:360-366 | issues `Seek(i)` exactly when the change came from the user |
| `PlayerView.View.OnCompletedAudio` | player/src/main/java/com/example/jean/jcplayer/view/JcPlayerView.kt:382-389 | always issues `Next`; every exception is caught, so nothing escapes and nothing else changes |
| `PlayerManager.Manager.PauseAudio` | player/src/main/java/com/example/jean/jcplayer/view/JcPlayerView.kt:274 | the manager's `pauseAudio` records `Pause` and changes nothing else the view can see |
| `PlayerManager.Manager.PlayAudio` | player/src/main/java/com/example/jean/jcplayer/view/JcPlayerView.kt:216 | the manager's `playAudio` records `Play(a)` |
| `PlayerManager.Manager.NextAudio` | player/src/main/java/com/example/jean/jcplayer/view/JcPlayerView.kt:245 | the manager's `nextAudio` records `Next` and passes on the exception it threw, if any |
| `PlayerManager.Manager.PreviousAudio` | player/src/main/java/com/example/jean/jcplayer/view/JcPlayerView.kt:287 | the manager's `previousAudio` records `Previous` and passes on the exception it threw, if any |
| `PlayerManager.Manager.ContinueAudio` | player/src/main/java/com/example/jean/jcplayer/view/JcPlayerView.kt:262 | the manager's `continueAudio` records `Continue` and passes on the exception it threw, if any |
| `PlayerManager.Manager.SeekTo` | player/src/main/java/com/example/jean/jcplayer/view/JcPlayerView.kt:363 | the manager's `seekTo` records `Seek(i)` |
| `PlayerManager.Manager.ActiveRepeat` | player/src/main/java/com/example/jean/jcplayer/view/JcPlayerView.kt:326 | the manager's `activeRepeat` records `Repeat` |

## Left out

- `JcPlayerManager`'s own behaviour is not part of this model: what `nextAudio`, `previousAudio`, `continueAudio`, `pauseAudio`, `playAudio`, `seekTo` and `activeRepeat` do, the repeat flags, and the lazy singleton lookup. Its methods only record the command they receive.
- Exceptions from the manager are told apart only as `AudioListNullPointerException` or some other exception. Which other exception, its message and its stack trace (`printStackTrace`) are not modelled.
- The manager's `playlist` and `jcPlayerManagerListener` properties are plain fields here. Any logic in their setters is not part of this model.
- View inflation, styled-attribute parsing, icons, button visibility, the progress bar, pulse animations and the posting of UI updates: Android UI with no playlist logic.
- `onStartTrackingTouch`, `onStopTrackingTouch`, `onPreparedAudio`, `onPlaying`, `onContinueAudio`, `onPaused`, `onStopped`, `onJcpError`, `onTimeChanged` and `resetPlayerInfo` touch only the UI or are empty. `onTimeChanged` calls the time formatter `toTimeSongString`, which is not part of this model.
- `createNotification` and `kill` forward straight to the manager and carry no logic.
- The getters `myPlaylist`, `isPlaying`, `isPaused`, `currentAudio` and the property `onInvalidPathListener` are not modelled. The model reads the manager's fields directly.
- The listener handed to `initPlaylist` is stored and then overwritten by the view. Only that final value is stated. Event fan-out to listeners is asynchronous engine work and is not modelled.
- List identity: `initPlaylist` makes the caller's list object the manager's list, so later additions and removals show through the caller's reference. The model copies the sequence value. The `as ArrayList` cast, which throws for other list types, is not modelled.
- `JcAudio` equality is a fixed identity key. If the real `equals` compared mutable fields, such as the position `addAudio` writes before calling `contains`, the results of `contains` and `remove` could differ.
- `PlayerView.View.InitPlaylist`: an empty list makes the source throw an index-out-of-range error in `isAlreadySorted`. The model requires a non-empty list instead. `isAlreadySorted`'s null-list branch is never reached from `initPlaylist` and is left out.
- `PlayerView.View.AddAudio`: the Kotlin `Int` sum `size + 1` (line 164) is unbounded here. It would wrap only for a list of 2^31 - 1 elements. The `i + 1` of title generation cannot wrap, since `i` is below the list's size.
- A clicked control is always present in the layout, so the `btnX?.let` null branches of `onClick` are not modelled. The repeat flags read after `activeRepeat` have no effect and are left out.
