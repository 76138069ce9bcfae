/**
 * `AudioServerInstance`: the per-scene node that builds one `Sound` for each
 * requested catalog sound and forwards playback and volume calls to them by
 * identifier, together with its editor half (the two pick-list properties
 * that append to `soundsToLoad`) and the case-insensitive name lookup.
 *
 * `sounds` is null until `_Ready` has built it; the model tracks that with
 * `built`, and every operation that dereferences it requires `built`.
 */
module Instance {

  import opened Seqs
  import opened Catalog
  import opened Voice
  import opened Mixer

  /** `(Sounds)(-1)`: what a failed name lookup returns. */
  const NotFound: SoundId := -1

  /** ASCII upper case to lower case; every other character is kept. */
  function FoldChar(c: char): char {
    if 'A' <= c <= 'Z' then (c as int + 32) as char else c
  }

  function FoldCase(s: string): (r: string)
    ensures |r| == |s|
    decreases |s|
  {
    if s == [] then [] else [FoldChar(s[0])] + FoldCase(s[1..])
  }

  /** Two names that differ only in letter case. */
  predicate SameName(a: string, b: string) {
    FoldCase(a) == FoldCase(b)
  }

  /** The declared names of the `Sounds` enum with their values, in declaration order. */
  const SoundNames: seq<(string, SoundId)> := [
    ("Bloop", Bloop), ("Bleep", Bleep), ("Explosion", Explosion), ("Mrrp", Mrrp),
    ("ExplosionB", ExplosionB), ("ShortSong", ShortSong), ("_PickSound_", PickSound)
  ]

  /** Every name in the table stands for the sentinel or a catalog sound, never for -1. */
  lemma NameTableValues()
    ensures forall i :: 0 <= i < |SoundNames| ==>
      (SoundNames[i].1 == PickSound || SoundNames[i].1 in SoundDict) && SoundNames[i].1 != NotFound
  {
  }

  /** The value of the first entry whose name matches `name` ignoring case. */
  function FindName(names: seq<(string, SoundId)>, name: string): (r: Option<SoundId>)
    ensures r.None? <==> forall i :: 0 <= i < |names| ==> !SameName(names[i].0, name)
    ensures r.Some? ==> exists i :: 0 <= i < |names| && SameName(names[i].0, name) && names[i].1 == r.value
                                  && forall j :: 0 <= j < i ==> !SameName(names[j].0, name)
    decreases |names|
  {
    if names == [] then None
    else if SameName(names[0].0, name) then Some(names[0].1)
    else
      var r := FindName(names[1..], name);
      assert forall i :: 1 <= i < |names| ==> names[i] == names[1..][i - 1];
      r
  }

  /** The lookup answers the same for two names that agree up to case. */
  lemma {:induction false} FindNameIgnoresCase(names: seq<(string, SoundId)>, a: string, b: string)
    requires SameName(a, b)
    ensures FindName(names, a) == FindName(names, b)
    decreases |names|
  {
    if names != [] {
      FindNameIgnoresCase(names[1..], a, b);
    }
  }

  /** Folding the case of an already folded name changes nothing. */
  lemma {:induction false} FoldCaseIdempotent(s: string)
    ensures FoldCase(FoldCase(s)) == FoldCase(s)
    decreases |s|
  {
    if s != [] {
      FoldCaseIdempotent(s[1..]);
      assert FoldCase(s)[1..] == FoldCase(s[1..]);
    }
  }

  /** Spellings of a name that differ only in case give the same identifier. */
  lemma GetSoundByNameIgnoresCase(a: string, b: string)
    requires SameName(a, b)
    ensures AudioServerInstance.GetSoundByName(a) == AudioServerInstance.GetSoundByName(b)
  {
    FindNameIgnoresCase(SoundNames, a, b);
  }

  /** The all-lower-case spelling of a name gives the same identifier as the name. */
  lemma GetSoundByNameOfFolded(a: string)
    ensures AudioServerInstance.GetSoundByName(FoldCase(a)) == AudioServerInstance.GetSoundByName(a)
  {
    FoldCaseIdempotent(a);
    FindNameIgnoresCase(SoundNames, FoldCase(a), a);
  }

  /** A declared name resolves to its value in any case. */
  lemma GetSoundByNameFindsMixedCase()
    ensures AudioServerInstance.GetSoundByName("bLOOP") == Bloop
  {
  }

  /** A name that is not declared gives -1. */
  lemma GetSoundByNameMissesUnknown()
    ensures AudioServerInstance.GetSoundByName("Kaboom") == NotFound
  {
  }

  /** What `_Ready` asks the store for: each requested sound once, without the sentinel. */
  function LoadRequest(toLoad: seq<SoundId>): (r: seq<SoundId>)
    ensures NoDuplicates(r)
    ensures forall x :: x in r <==> x in toLoad && x != PickSound
  {
    RemoveAll(Distinct(toLoad), {PickSound})
  }

  /** Some element of a non-empty set: the next sound a `foreach` visits. */
  method AnyOf(s: set<SoundId>) returns (x: SoundId)
    requires s != {}
    ensures x in s
  {
    if forall y :: y !in s {
      // a set with no element is the empty set
      assert false;
    }
    x :| x in s;
  }

  /** `soundsToLoad ??= []` */
  function OrEmpty(o: Option<seq<SoundId>>): seq<SoundId> {
    if o.Some? then o.value else []
  }

  class AudioServerInstance {
    /** The process-wide static store the instance reads and writes through. */
    const server: AudioServer
    /** The built sounds by identifier (frozen once built). */
    var sounds: map<SoundId, Sound>
    /** Whether `_Ready` has run, so that `sounds` is not null. */
    var built: bool
    /** The exported list of identifiers to build; the editor may leave it null. */
    var soundsToLoad: Option<seq<SoundId>>
    /** The backing fields of the two editor pick lists. */
    var addNewSoundField: SoundId
    var addCategoryField: CategoryId

    /**
     * The pick lists show their sentinels; the built sounds are catalog
     * sounds carrying their catalog tag, each keeps its volume composed, and
     * no two identifiers share a sound.
     */
    ghost predicate Valid()
      reads this, sounds.Values
    {
      && addNewSoundField == PickSound && addCategoryField == PickCategory
      && (!built ==> sounds == map[])
      && (forall id :: id in sounds ==> id in SoundDict && sounds[id].tag == SoundDict[id].tag)
      && (forall id :: id in sounds ==> sounds[id].Valid())
      && (forall a, b :: a in sounds && b in sounds && a != b ==> sounds[a] != sounds[b])
    }

    /** The parameterless constructor: nothing built, an empty load list. */
    constructor (server: AudioServer)
      ensures Valid() && !built
      ensures this.server == server && soundsToLoad == Some([])
    {
      this.server := server;
      sounds, built := map[], false;
      soundsToLoad := Some([]);
      addNewSoundField, addCategoryField := PickSound, PickCategory;
    }

    /** The constructor that takes the identifiers to load, kept as given. */
    constructor WithSounds(server: AudioServer, toLoad: seq<SoundId>)
      ensures Valid() && !built
      ensures this.server == server && soundsToLoad == Some(toLoad)
    {
      this.server := server;
      sounds, built := map[], false;
      soundsToLoad := Some(toLoad);
      addNewSoundField, addCategoryField := PickSound, PickCategory;
    }

    /**
     * `_Ready`: builds one fresh sound for every requested catalog sound,
     * seeded from the store; repeats and the sentinel produce nothing.
     */
    method AddPlayersAsChildren()
      requires Valid() && soundsToLoad.Some?
      requires forall i :: 0 <= i < |soundsToLoad.value| ==> server.CanSeed(soundsToLoad.value[i])
      modifies this`sounds, this`built
      ensures Valid() && built
      ensures sounds.Keys == set id | id in soundsToLoad.value && id in SoundDict
      ensures PickSound !in sounds
      ensures forall id :: id in sounds ==> fresh(sounds[id]) && server.Seeded(id, sounds[id])
    {
      var request := LoadRequest(soundsToLoad.value);
      assert forall x :: x in request ==> server.CanSeed(x);
      sounds := server.GetSoundList(request);
      built := true;
      CatalogShape();
    }

    /** Stops every built sound; nothing but the playing flags changes. */
    method StopAllSounds()
      requires Valid() && built
      modifies sounds.Values`playing
      ensures Valid()
      ensures forall id :: id in sounds ==> !sounds[id].playing
    {
      var pending := sounds.Keys;
      while pending != {}
        invariant pending <= sounds.Keys
        invariant Valid()
        invariant forall id :: id in sounds && id !in pending ==> !sounds[id].playing
        decreases pending
      {
        var id := AnyOf(pending);
        sounds[id].Stop();
        pending := pending - {id};
      }
    }

    /** Toggles the sound with that identifier; an identifier that was not built changes nothing. */
    method Toggle(sound: SoundId)
      requires Valid() && built
      modifies sounds.Values`playing
      ensures Valid()
      ensures forall id :: id in sounds ==>
        sounds[id].playing == if id == sound then !old(sounds[id].playing) else old(sounds[id].playing)
    {
      if sound !in sounds {
        return;
      }
      sounds[sound].Toggle();
    }

    /** Toggles looping of the sound with that identifier; no other sound changes. */
    method ToggleLooping(sound: SoundId)
      requires Valid() && built
      modifies sounds.Values`looping, sounds.Values`replaySubscribed
      ensures Valid()
      ensures forall id :: id in sounds ==>
        sounds[id].State() == if id == sound then LoopingToggled(old(sounds[id].State())) else old(sounds[id].State())
    {
      if sound !in sounds {
        return;
      }
      sounds[sound].ToggleLooping();
    }

    /** Stops the sound with that identifier; no other sound changes. */
    method Stop(sound: SoundId)
      requires Valid() && built
      modifies sounds.Values`playing
      ensures Valid()
      ensures forall id :: id in sounds ==>
        sounds[id].playing == if id == sound then false else old(sounds[id].playing)
    {
      if sound !in sounds {
        return;
      }
      sounds[sound].Stop();
    }

    /** Plays the sound with that identifier from the given offset; no other sound changes. */
    method Play(sound: SoundId, fromPosition: real)
      requires Valid() && built
      modifies sounds.Values`playing
      ensures Valid()
      ensures forall id :: id in sounds ==>
        sounds[id].playing == if id == sound then true else old(sounds[id].playing)
    {
      if sound !in sounds {
        return;
      }
      sounds[sound].Play(fromPosition);
    }

    /**
     * The case-insensitive enum lookup: the value of the declared name that
     * matches, or -1 when none does.
     */
    static function GetSoundByName(name: string): (r: SoundId)
      ensures r == NotFound <==> forall i :: 0 <= i < |SoundNames| ==> !SameName(SoundNames[i].0, name)
      ensures r != NotFound ==> exists i :: 0 <= i < |SoundNames| && SameName(SoundNames[i].0, name) && SoundNames[i].1 == r
      ensures r == NotFound || r == PickSound || r in SoundDict
    {
      match FindName(SoundNames, name)
      case None => NotFound
      case Some(id) => NameTableValues(); id
    }

    /** Sets the master factor of every built sound, then the stored master volume. */
    method SetLinearVolumeMaster(v: real)
      requires Valid() && built
      modifies sounds.Values`masterLinearVolume, sounds.Values`linearVolume, server`masterVolume
      ensures Valid()
      ensures forall id :: id in sounds ==> sounds[id].State() == WithMaster(old(sounds[id].State()), v)
      ensures server.masterVolume == v
    {
      var pending := sounds.Keys;
      while pending != {}
        invariant pending <= sounds.Keys
        invariant Valid()
        invariant forall id :: id in sounds && id !in pending ==> sounds[id].State() == WithMaster(old(sounds[id].State()), v)
        invariant forall id :: id in pending ==> sounds[id].State() == old(sounds[id].State())
        decreases pending
      {
        var id := AnyOf(pending);
        sounds[id].SetMasterLinearVolume(v);
        pending := pending - {id};
      }
      server.SetLinearVolumeMaster(v);
    }

    /**
     * Sets the own factor of the sound with that identifier and stores it;
     * an identifier that was not built changes nothing, and the store keeps
     * no entry it did not have.
     */
    method SetLinearVolume(v: real, sound: SoundId)
      requires Valid() && built
      modifies sounds.Values`selfLinearVolume, sounds.Values`linearVolume, server`individualVolumes
      ensures Valid()
      ensures forall id :: id in sounds ==>
        sounds[id].State() == if id == sound then WithSelf(old(sounds[id].State()), v) else old(sounds[id].State())
      ensures server.individualVolumes ==
        if sound in sounds then Overwrite(old(server.individualVolumes), sound, v) else old(server.individualVolumes)
    {
      if sound !in sounds {
        return;
      }
      sounds[sound].SetSelfLinearVolume(v);
      server.SetLinearVolume(v, sound);
    }

    /** Sets the tag factor of every built sound with that tag, then stores it. */
    method SetLinearVolumeTagged(v: real, tag: SoundTag)
      requires Valid() && built
      modifies sounds.Values`tagLinearVolume, sounds.Values`linearVolume, server`categoryVolumes
      ensures Valid()
      ensures forall id :: id in sounds ==>
        sounds[id].State() == if sounds[id].tag == tag then WithTag(old(sounds[id].State()), v) else old(sounds[id].State())
      ensures server.categoryVolumes == Overwrite(old(server.categoryVolumes), tag, v)
    {
      var pending := sounds.Keys;
      while pending != {}
        invariant pending <= sounds.Keys
        invariant Valid()
        invariant forall id :: id in sounds && id !in pending ==>
          sounds[id].State() == if sounds[id].tag == tag then WithTag(old(sounds[id].State()), v) else old(sounds[id].State())
        invariant forall id :: id in pending ==> sounds[id].State() == old(sounds[id].State())
        invariant server.categoryVolumes == old(server.categoryVolumes)
        decreases pending
      {
        var id := AnyOf(pending);
        if sounds[id].Is(tag) {
          sounds[id].SetTagLinearVolume(v);
        }
        pending := pending - {id};
      }
      server.SetLinearVolumeTagged(v, tag);
    }

    /** The editor pick list always shows the sentinel. */
    function AddNewSound(): (r: SoundId)
      requires Valid()
      reads this, sounds.Values
      ensures r == PickSound
    {
      addNewSoundField
    }

    /**
     * Picking a sound in the editor appends it to the load list unless it is
     * already there, and resets the pick list to its sentinel.
     */
    method SetAddNewSound(value: SoundId)
      requires Valid()
      modifies this`addNewSoundField, this`soundsToLoad
      ensures Valid()
      ensures soundsToLoad.Some?
      ensures soundsToLoad.value == if value in OrEmpty(old(soundsToLoad)) then OrEmpty(old(soundsToLoad))
                                    else OrEmpty(old(soundsToLoad)) + [value]
      ensures soundsToLoad.value == AddMissing(OrEmpty(old(soundsToLoad)), [value])
      ensures old(soundsToLoad).None? ==> soundsToLoad == Some([value])
      ensures NoDuplicates(OrEmpty(old(soundsToLoad))) ==> NoDuplicates(soundsToLoad.value)
    {
      addNewSoundField := PickSound;
      soundsToLoad := Some(OrEmpty(soundsToLoad));
      ghost var base := soundsToLoad.value;
      if value !in soundsToLoad.value {
        soundsToLoad := Some(soundsToLoad.value + [value]);
      }
      assert [value][..0] == [];
      AddMissingKeepsList(base, [value]);
    }

    /** The editor category pick list always shows the sentinel. */
    function AddCategory(): (r: CategoryId)
      requires Valid()
      reads this, sounds.Values
      ensures r == PickCategory
    {
      addCategoryField
    }

    /**
     * Picking a category in the editor appends, in list order, each of its
     * sounds that the load list does not hold yet; an unknown category (the
     * sentinel included) leaves the list as it was, apart from `null`
     * becoming empty.
     */
    method SetAddCategory(value: CategoryId)
      requires Valid()
      modifies this`addCategoryField, this`soundsToLoad
      ensures Valid()
      ensures soundsToLoad.Some?
      ensures soundsToLoad.value == AddMissing(OrEmpty(old(soundsToLoad)), GetSoundsFromCategory(value))
      ensures value !in SoundLists ==> soundsToLoad.value == OrEmpty(old(soundsToLoad))
      ensures old(soundsToLoad).None? ==> soundsToLoad == Some(GetSoundsFromCategory(value))
      ensures NoDuplicates(OrEmpty(old(soundsToLoad))) ==> NoDuplicates(soundsToLoad.value)
    {
      addCategoryField := PickCategory;
      var toAdd := GetSoundsFromCategory(value);
      ghost var base := OrEmpty(soundsToLoad);
      soundsToLoad := Some(OrEmpty(soundsToLoad));
      for k := 0 to |toAdd|
        invariant soundsToLoad == Some(AddMissing(base, toAdd[..k]))
        invariant addCategoryField == PickCategory
      {
        var sound := toAdd[k];
        assert toAdd[..k + 1] == toAdd[..k] + [sound];
        AddMissingSnoc(base, toAdd[..k], sound);
        if sound !in soundsToLoad.value {
          soundsToLoad := Some(soundsToLoad.value + [sound]);
        }
      }
      assert toAdd[..|toAdd|] == toAdd;
      AddMissingKeepsList(base, toAdd);
      if base == [] {
        AddMissingToEmpty(toAdd);
        DistinctOfDistinct(toAdd);
      }
    }
  }

  /**
   * The sounds `_Ready` builds after the editor picked a category are its
   * sounds plus whatever was already requested.
   */
  lemma CategoryPickLoadsItsSounds(list: seq<SoundId>, category: CategoryId)
    ensures forall x :: x in LoadRequest(AddMissing(list, GetSoundsFromCategory(category))) <==>
      (x in list && x != PickSound) || x in GetSoundsFromCategory(category)
  {
    AddMissingKeepsList(list, GetSoundsFromCategory(category));
    CatalogShape();
  }
}
