# Audio mixing core, modelled in Dafny

This project models the audio subsystem of a small Godot game, together with its
back-button scene stack:

- **Catalog** (`catalog.dfy`). This is the compiled-in `soundDict` and
  `soundLists` tables of the static `AudioServer`. The `Sounds` and
  `SoundLists` enums are integers, so that both of these are representable:
  - the editor sentinels (`int.MaxValue`);
  - the value `-1` that a failed name lookup returns.
- **Sound** (`voice.dfy`). One playback voice. It has three linear volume
  factors (master, own, tag) and the effective volume they compose to, a
  playing flag, a looping flag and a fixed tag. `VoiceState` and its
  functions give the value-level reading of every method. The lemmas about
  `VoiceState` cover:
  - any sequence of factor setters;
  - toggling;
  - stopping;
  - the looping round trip.
- **Volume store** (`mixer.dfy`). The process-wide master volume and the two
  sparse volume maps, with their setters and the in-memory effect of `Save`.
  `GetSoundList` builds a keyed set of fresh `Sound`s seeded from the store.
- **AudioServerInstance** (`instance.dfy`). The node that builds its sounds
  from `soundsToLoad` and forwards per-identifier and bulk operations to them,
  writing volumes through to the store. It also holds:
  - the case-insensitive name lookup;
  - the two editor pick-list properties that append to `soundsToLoad`.
- **SceneManager** (`scenes.dfy`). The push/pop stack of scene paths, with
  `History` as its value-level reading.
- **Sequences** (`seqs.dfy`). The list operations the code relies on:
  - LINQ `Distinct`;
  - the `Where` that drops the sentinel;
  - the editor's "append unless present" loop.

In four places the code does something easy to misread; the model follows the
code:

- The store setters `SetLinearVolume` and `SetLinearVolumeTagged` never create
  a key. They return without writing when the key is absent.
- There is no 1.0 default for a missing key. `GetSoundResource` indexes both
  maps directly, so building a sound needs both keys. This is a precondition
  here (`Mixer.AudioServer.CanSeed`).
- A failed name lookup yields `-1`, not the sentinel.
- Unsubscribing the replay handler in `Sound.ToggleLooping` removes nothing,
  because `-=` passes a different lambda from the one `+=` subscribed.
  Re-subscribing is refused, because every `+=` builds an equal callable and
  the engine does not connect an equal callable twice. So at most one replay
  handler is ever subscribed, and once subscribed it stays. A sound whose
  looping was switched on and off again keeps replaying.

## Model

| member | source | states |
|---|---|---|
| Seqs.Distinct | AudioServer/AudioServerInstance.cs:119-120 | the result holds each element of the input exactly once and nothing else |
| Seqs.RemoveAll | AudioServer/AudioServerInstance.cs:121 | the result holds exactly the input's elements outside the dropped set, and stays duplicate-free |
| Seqs.AddMissingKeepsList | AudioServer/AudioServerInstanceTooling.cs:40-42 | appending keeps the old list as a prefix, holds exactly the old and the offered elements, and keeps a duplicate-free list duplicate-free |
| Seqs.AddMissingAppendsNewInOrder | AudioServer/AudioServerInstanceTooling.cs:40-42 | what is appended is each offered element not already held, once, in the order offered |
| Seqs.DistinctOfDistinct | AudioServer/AudioServerInstance.cs:119-120 | a duplicate-free request passes through `Distinct` unchanged |
| Seqs.AddMissingToEmpty | AudioServer/AudioServerInstanceTooling.cs:18-20 | appending to an empty (or null) list gives the distinct offered elements |
| Catalog.CatalogShape | AudioServer/AudioServer.cs:8-49 | the catalog keys are exactly the six real sounds, the sentinel is not one, and every polyphony is at least 1 |
| Catalog.CategoryListsInCatalog | AudioServer/AudioServer.cs:51-59 | every sound a category lists is in the catalog, and the category sentinel has no list |
| Catalog.GetSoundsFromCategory | AudioServer/AudioServer.cs:154-162 | a known category gives a non-empty list and an unknown one (the sentinel included) an empty one; the list holds catalog sounds, each once |
| Voice.SetterCallsCompose | AudioServer/Sound.cs:55-77 | after any sequence of factor setters, in any order, each factor is the last value set for it and the effective volume is the product of the three; playing, looping and the replay subscription are untouched |
| Voice.ApplyCallSetsOneFactor | AudioServer/Sound.cs:61-77 | one setter changes its own factor only and recomposes the effective volume |
| Voice.FreshSoundAfterCalls | AudioServer/Sound.cs:10-26 | from a new sound, each factor is the last value set for it, or 1.0 if never set |
| Voice.ToggleTwice | AudioServer/Sound.cs:37-43 | toggling flips the playing flag, and toggling twice restores the whole state |
| Voice.StopIdempotent | AudioServer/Sound.cs:45-53 | stopping is idempotent and leaves the sound stopped; stopping and playing keep the looping flag |
| Voice.LoopingRoundTripLeaksHandler | AudioServer/Sound.cs:28-35 | toggling looping twice restores the flag but leaves the replay handler subscribed, so a sound switched on and off is not looping yet still replays |
| Voice.LoopingTogglesSubscribeOnce | AudioServer/Sound.cs:28-35 | after n toggles the flag has flipped n times; the handler is subscribed exactly when it already was or looping was switched on at least once, no toggle adds a second one, and nothing else changes |
| Voice.Sound.constructor | AudioServer/Sound.cs:8-26 | a new sound has all factors and its volume at 1.0, is stopped, not looping, has no replay handler subscribed, and keeps its tag; `Is(t)` holds exactly for the tag given at construction |
| Voice.Sound.ToggleLooping | AudioServer/Sound.cs:28-35 | negates the looping flag; switching it on makes the replay handler subscribed (a no-op when it already is), switching it off removes nothing |
| Voice.Sound.Toggle | AudioServer/Sound.cs:37-43 | negates the playing flag and changes nothing else |
| Voice.Sound.Play | AudioServer/Sound.cs:45-48 | the sound is playing and nothing else changed |
| Voice.Sound.Stop | AudioServer/Sound.cs:50-53 | the sound is not playing and nothing else changed |
| Voice.Sound.RecomputeVolume | AudioServer/Sound.cs:55-59 | the effective volume is the product of the three factors |
| Voice.Sound.SetMasterLinearVolume | AudioServer/Sound.cs:61-65 | the master factor is the argument, the volume is recomposed, and the other factors, the flags and the tag are unchanged |
| Voice.Sound.SetSelfLinearVolume | AudioServer/Sound.cs:67-71 | the own factor is the argument, the volume is recomposed, and everything else is unchanged |
| Voice.Sound.SetTagLinearVolume | AudioServer/Sound.cs:73-77 | the tag factor is the argument, the volume is recomposed, and everything else is unchanged |
| Mixer.Overwrite | AudioServer/AudioServer.cs:124-147 | the keys are unchanged; an existing key gets the new value; every other entry is unchanged |
| Mixer.AudioServer.constructor | AudioServer/AudioServer.cs:61-63 | the store starts with no stored volumes and master at 1.0 |
| Mixer.AudioServer.Save | AudioServer/AudioServer.cs:89-108 | the save data (`GetSaveData`) holds exactly the three arguments |
| Mixer.AudioServer.SetLinearVolumeMaster | AudioServer/AudioServer.cs:114-117 | the master volume is the argument; both maps are outside the frame, so unchanged |
| Mixer.AudioServer.SetLinearVolume | AudioServer/AudioServer.cs:124-132 | an existing entry is overwritten, no key is created, and nothing else changes |
| Mixer.AudioServer.SetLinearVolumeTagged | AudioServer/AudioServer.cs:139-147 | an existing tag entry is overwritten, no key is created, and nothing else changes |
| Mixer.AudioServer.GetSoundResource | AudioServer/AudioServer.cs:193-202 | a fresh sound with the given row and the stored own, tag and master factors, so its volume is their product; stopped and not looping |
| Mixer.AudioServer.GetSoundList | AudioServer/AudioServer.cs:169-191 | the keys are exactly the requested catalog sounds; each value is a fresh sound seeded from the store, and no two keys share a sound |
| Instance.FindName | AudioServer/AudioServerInstance.cs:87-100 | no result exactly when no entry matches ignoring case; otherwise the value of the first matching entry |
| Instance.FindNameIgnoresCase | AudioServer/AudioServerInstance.cs:93 | names that agree up to case look up the same value |
| Instance.FoldCaseIdempotent | AudioServer/AudioServerInstance.cs:93 | folding an already folded name changes nothing |
| Instance.GetSoundByNameIgnoresCase | AudioServer/AudioServerInstance.cs:76-100 | spellings that differ only in case give the same identifier |
| Instance.GetSoundByNameOfFolded | AudioServer/AudioServerInstance.cs:76-100 | the all-lower-case spelling of a name gives the same identifier as the name |
| Instance.GetSoundByNameFindsMixedCase | AudioServer/AudioServerInstance.cs:76-100 | "bLOOP" resolves to Bloop |
| Instance.GetSoundByNameMissesUnknown | AudioServer/AudioServerInstance.cs:85-99 | the undeclared name "Kaboom" gives -1 |
| Instance.AudioServerInstance.GetSoundByName | AudioServer/AudioServerInstance.cs:87-100 | -1 exactly when no declared name matches ignoring case; otherwise the value of a matching name, which is the sentinel or a catalog sound |
| Instance.LoadRequest | AudioServer/AudioServerInstance.cs:119-121 | the request holds each listed identifier once, without the sentinel |
| Instance.AudioServerInstance.constructor | AudioServer/AudioServerInstance.cs:12 | nothing built, an empty load list, pick lists at their sentinels |
| Instance.AudioServerInstance.WithSounds | AudioServer/AudioServerInstance.cs:13-16 | nothing built, the load list as given |
| Instance.AudioServerInstance.AddPlayersAsChildren | AudioServer/AudioServerInstance.cs:117-125 | the built keys are exactly the listed catalog sounds (no sentinel, each once), each a fresh sound seeded from the store |
| Instance.AudioServerInstance.StopAllSounds | AudioServer/AudioServerInstance.cs:27-31 | every built sound is stopped; only playing flags change |
| Instance.AudioServerInstance.Toggle | AudioServer/AudioServerInstance.cs:37-45 | only the named sound's playing flag flips; an identifier not built changes nothing |
| Instance.AudioServerInstance.ToggleLooping | AudioServer/AudioServerInstance.cs:51-59 | only the named sound's looping state changes, as one looping toggle; an identifier not built changes nothing |
| Instance.AudioServerInstance.Stop | AudioServer/AudioServerInstance.cs:65-73 | only the named sound is stopped; an identifier not built changes nothing |
| Instance.AudioServerInstance.Play | AudioServer/AudioServerInstance.cs:107-115 | only the named sound is playing; an identifier not built changes nothing |
| Instance.AudioServerInstance.SetLinearVolumeMaster | AudioServer/AudioServerInstance.cs:131-136 | every built sound gets the master factor with its volume recomposed, and the store's master volume is the argument |
| Instance.AudioServerInstance.SetLinearVolume | AudioServer/AudioServerInstance.cs:143-152 | only the named sound's own factor changes, and the store entry is overwritten only if it existed; an identifier not built changes neither |
| Instance.AudioServerInstance.SetLinearVolumeTagged | AudioServer/AudioServerInstance.cs:159-165 | exactly the built sounds with that tag get the new tag factor, all others are untouched, and the store entry is overwritten only if it existed |
| Instance.AudioServerInstance.AddNewSound | AudioServer/AudioServerInstanceTooling.cs:10-13 | the pick list always reads as the sentinel |
| Instance.AudioServerInstance.SetAddNewSound | AudioServer/AudioServerInstanceTooling.cs:14-23 | a null list becomes empty, the value is appended exactly when absent (so a null list becomes just the value), a duplicate-free list stays duplicate-free, and the pick list reads as the sentinel again |
| Instance.AudioServerInstance.AddCategory | AudioServer/AudioServerInstanceTooling.cs:30-33 | the category pick list always reads as the sentinel |
| Instance.AudioServerInstance.SetAddCategory | AudioServer/AudioServerInstanceTooling.cs:34-45 | the category's sounds not yet listed are appended in list order; a null list becomes exactly the category's list; an unknown category leaves the list as it was; a duplicate-free list stays duplicate-free |
| Instance.CategoryPickLoadsItsSounds | AudioServer/AudioServerInstanceTooling.cs:40-42 | after a category pick, the load request is the category's sounds plus what was listed before, without the sentinel |
| Scenes.BackwardUndoesForward | Assets/BackButton/SceneManager.cs:8-17 | going back right after going forward restores the stack and the current scene |
| Scenes.ForwardsRecordsVisits | Assets/BackButton/SceneManager.cs:8-12 | after going forward through some paths, the stack holds the start scene and every visited path but the last, in order, and the last is on screen |
| Scenes.BackwardsUndoesForwards | Assets/BackButton/SceneManager.cs:8-17 | each forward step grows the stack by one, and as many backward steps restore the start |
| Scenes.SceneManager.constructor | Assets/BackButton/SceneManager.cs:7 | the stack starts empty |
| Scenes.SceneManager.ChangeSceneForward | Assets/BackButton/SceneManager.cs:8-12 | the current scene is pushed and the new path is on screen |
| Scenes.SceneManager.ChangeSceneBackward | Assets/BackButton/SceneManager.cs:13-17 | the top of a non-empty stack is on screen and exactly that element is removed |

## Left out

- `Load`, the static constructor that calls it, and the file-writing half of
  `Save`: JSON serialisation and file I/O. `Load` also assigns the three
  fields one by one, so it is not atomic. `GetSaveData` is kept only as the
  shape of the saved data.
- Decibel conversion (`Mathf.LinearToDb`) and float rounding. Volumes are
  unbounded reals and their product is exact.
- Engine calls are abstracted:
  - `GD.Load`, `AudioStreamPlayer`, `AddChild` and `AddToGroup`;
  - the player's playing state is a boolean;
  - the stream (null when no resource location is given) is reduced to the
    resource path.
- The playback position passed to `Play` is not kept.
- The `Finished` event and its delivery from the audio thread. Only whether
  the replay handler is subscribed is kept. The engine clearing `Playing` when
  a stream ends on its own is not modelled either. So after a sound has
  finished by itself, `Toggle` stops it in the model, where the engine would
  play it again.
- `Debug.Print` diagnostics, and the editor refresh `NotifyPropertyListChanged()`
  that both pick-list setters call after changing `soundsToLoad`.
- Instance.AudioServerInstance.GetSoundByName: only ASCII letters are
  case-folded. `Enum.Parse`'s acceptance of numeric strings, comma-separated
  names and surrounding white space is not modelled. It is declared static
  because it reads no instance state.
- Instance.AudioServerInstance.AddPlayersAsChildren: requires both store keys
  of every listed catalog sound. The code instead throws part-way through.
  It also requires a non-null `soundsToLoad`, since the code would throw.
- The operations that use the built sounds require `built`. Before `_Ready`,
  `sounds` is null and the code throws.
- The order in which `foreach` visits `sounds.Values` is arbitrary in the
  model. None of the stated results depend on it.
- Scenes.SceneManager.ChangeSceneBackward: requires a non-empty stack, since
  `Last()` throws on an empty one.
- `ChangeSceneToFile` is modelled as an immediate change of the current
  scene. Its deferral to the end of the frame and its failure on a bad path
  are engine behaviour.
- The menu and key-binding UI builders and the one-line scene-change button
  handlers: engine UI code with no logic of its own.
