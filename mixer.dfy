/**
 * The process-wide state of the static `AudioServer`: the master volume and
 * the two sparse volume maps, their setters, the in-memory half of `Save`,
 * and the construction of a keyed set of `Sound`s seeded from that state.
 *
 * The static class becomes one `AudioServer` object. Each instance is given
 * the store it works on; passing every instance the same object, as the
 * static class implies, is the caller's convention. Reading and writing
 * `soundSettings.json` is not part of this model.
 */
module Mixer {

  import opened Catalog
  import opened Voice

  /** The three-field shape that is serialised. */
  datatype SaveData = SaveData(
    masterVolume: real,
    categoryVolumes: map<SoundTag, real>,
    individualVolumes: map<SoundId, real>)

  /** Writes `v` under `k` only when `k` is already a key. */
  function Overwrite<K(!new), V>(m: map<K, V>, k: K, v: V): (r: map<K, V>)
    ensures r.Keys == m.Keys
    ensures k in m ==> r[k] == v
    ensures forall j :: j in m && j != k ==> r[j] == m[j]
  {
    if k in m then m[k := v] else m
  }

  /** The requested identifiers that the catalog knows. */
  function Requested(sounds: seq<SoundId>): set<SoundId> {
    set id | id in sounds && id in SoundDict
  }

  class AudioServer {
    var individualVolumes: map<SoundId, real>
    var categoryVolumes: map<SoundTag, real>
    var masterVolume: real

    /** The field initialisers: no volumes stored, master at 1.0. */
    constructor ()
      ensures individualVolumes == map[] && categoryVolumes == map[] && masterVolume == 1.0
    {
      individualVolumes, categoryVolumes, masterVolume := map[], map[], 1.0;
    }

    /** The shape written to disk; with `empty`, the template used when reading. */
    function GetSaveData(empty: bool): SaveData
      reads this
    {
      if empty then SaveData(0.0, map[], map[])
      else SaveData(masterVolume, categoryVolumes, individualVolumes)
    }

    /** Stores the three values (the maps are values, so the store holds its own copies). */
    method Save(master: real, individual: map<SoundId, real>, category: map<SoundTag, real>)
      modifies this
      ensures GetSaveData(false) == SaveData(master, category, individual)
    {
      masterVolume := master;
      individualVolumes := individual;
      categoryVolumes := category;
    }

    /** Replaces the master volume; the two maps are outside its frame. */
    method SetLinearVolumeMaster(v: real)
      modifies this`masterVolume
      ensures masterVolume == v
    {
      masterVolume := v;
    }

    /** Overwrites the volume of a sound that has one; never creates a key. */
    method SetLinearVolume(v: real, sound: SoundId)
      modifies this`individualVolumes
      ensures individualVolumes == Overwrite(old(individualVolumes), sound, v)
    {
      if sound !in individualVolumes {
        return;
      }
      individualVolumes := individualVolumes[sound := v];
    }

    /** Overwrites the volume of a tag that has one; never creates a key. */
    method SetLinearVolumeTagged(v: real, tag: SoundTag)
      modifies this`categoryVolumes
      ensures categoryVolumes == Overwrite(old(categoryVolumes), tag, v)
    {
      if tag !in categoryVolumes {
        return;
      }
      categoryVolumes := categoryVolumes[tag := v];
    }

    /** A catalog sound can be built only when both of its volumes are stored. */
    ghost predicate CanSeed(id: SoundId)
      reads this
    {
      id in SoundDict ==> id in individualVolumes && SoundDict[id].tag in categoryVolumes
    }

    /** A sound built for `id`: its catalog row, the stored factors (so its volume is their product), stopped, not looping. */
    ghost predicate Seeded(id: SoundId, s: Sound)
      reads this, s
    {
      && id in SoundDict && CanSeed(id)
      && s.tag == SoundDict[id].tag
      && s.resourceLocation == SoundDict[id].resourceLocation
      && s.polyphony == SoundDict[id].polyphony
      && s.selfLinearVolume == individualVolumes[id]
      && s.tagLinearVolume == categoryVolumes[SoundDict[id].tag]
      && s.masterLinearVolume == masterVolume
      && s.Valid()
      && !s.playing && !s.looping && !s.replaySubscribed
    }

    method GetSoundResource(sound: SoundId, tag: SoundTag, resourceLocation: string, polyphony: int)
      returns (r: Sound)
      requires sound in individualVolumes && tag in categoryVolumes
      ensures fresh(r) && r.Valid()
      ensures r.tag == tag && r.resourceLocation == resourceLocation && r.polyphony == polyphony
      ensures r.selfLinearVolume == individualVolumes[sound] && r.tagLinearVolume == categoryVolumes[tag]
      ensures r.masterLinearVolume == masterVolume
      ensures !r.playing && !r.looping && !r.replaySubscribed
    {
      r := new Sound(resourceLocation, polyphony, tag);
      r.SetSelfLinearVolume(individualVolumes[sound]);
      r.SetTagLinearVolume(categoryVolumes[tag]);
      r.SetMasterLinearVolume(masterVolume);
    }

    /**
     * One fresh, seeded sound for each requested identifier the catalog
     * knows; unknown identifiers and repeats produce nothing.
     */
    method GetSoundList(sounds: seq<SoundId>) returns (list: map<SoundId, Sound>)
      requires forall i :: 0 <= i < |sounds| ==> CanSeed(sounds[i])
      ensures list.Keys == Requested(sounds)
      ensures forall id :: id in list ==> fresh(list[id]) && Seeded(id, list[id])
      ensures forall a, b :: a in list && b in list && a != b ==> list[a] != list[b]
    {
      list := map[];
      var i := 0;
      while i < |sounds|
        invariant 0 <= i <= |sounds|
        invariant list.Keys == Requested(sounds[..i])
        invariant forall id :: id in list ==> fresh(list[id]) && Seeded(id, list[id])
        invariant forall a, b :: a in list && b in list && a != b ==> list[a] != list[b]
      {
        var sound := sounds[i];
        assert sounds[..i + 1] == sounds[..i] + [sound];
        if sound !in SoundDict {
          // unknown identifier: reported and skipped
        } else if sound in list {
          // repeated identifier: reported and skipped
        } else {
          assert CanSeed(sound);
          var def := SoundDict[sound];
          var s := GetSoundResource(sound, def.tag, def.resourceLocation, def.polyphony);
          list := list[sound := s];
        }
        i := i + 1;
      }
      assert sounds[..i] == sounds;
    }
  }
}
