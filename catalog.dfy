/**
 * The compiled-in sound catalog of the static `AudioServer`: the sound
 * identifiers, the category lists and the tags, and the two frozen tables
 * that map an identifier to its definition and a category to its sounds.
 *
 * `Sounds` and `SoundLists` are C# enums whose editor sentinel is
 * `int.MaxValue`, and a failed name lookup yields `(Sounds)(-1)`; both are
 * integers here so that every such value is representable.
 */
module Catalog {

  import Seqs

  /** A value of the `Sounds` enum (any 32-bit integer can be cast to it). */
  type SoundId = int

  const Bloop: SoundId := 0
  const Bleep: SoundId := 1
  const Explosion: SoundId := 2
  const Mrrp: SoundId := 3
  const ExplosionB: SoundId := 4
  const ShortSong: SoundId := 5
  /** "No selection" in the editor; never a playable sound. */
  const PickSound: SoundId := 0x7FFF_FFFF

  /** A value of the `SoundLists` enum. */
  type CategoryId = int

  const ListMenu: CategoryId := 0
  const ListSfx: CategoryId := 1
  const ListPlayer: CategoryId := 2
  const ListMusic: CategoryId := 3
  /** "No selection" in the editor; has no list. */
  const PickCategory: CategoryId := 0x7FFF_FFFF

  /** The `SoundTags` enum: the category tag a volume factor is kept for. */
  datatype SoundTag = General | Detonations | Music

  /** One row of the catalog: where the asset lives, its polyphony, its tag. */
  datatype SoundDefinition = SoundDefinition(resourceLocation: string, polyphony: int, tag: SoundTag)

  /** `soundDict`: identifier to definition. */
  const SoundDict: map<SoundId, SoundDefinition> := map[
    Bleep      := SoundDefinition("res://AudioServer/sfx/bleep.wav", 1, General),
    Bloop      := SoundDefinition("res://AudioServer/sfx/bloop.wav", 1, General),
    Explosion  := SoundDefinition("res://AudioServer/sfx/explosion.wav", 1, Detonations),
    Mrrp       := SoundDefinition("res://AudioServer/sfx/mrrrrp.wav", 1, General),
    ExplosionB := SoundDefinition("res://AudioServer/sfx/explosionB.wav", 1, Detonations),
    ShortSong  := SoundDefinition("res://AudioServer/music/shortMusic.mp3", 1, Music)
  ]

  /** `soundLists`: category to its ordered sounds. */
  const SoundLists: map<CategoryId, seq<SoundId>> := map[
    ListMenu   := [Bleep, Bloop],
    ListSfx    := [Explosion, ExplosionB],
    ListPlayer := [Mrrp],
    ListMusic  := [ShortSong]
  ]

  /**
   * The catalog knows exactly the six real sounds, the sentinel is not one
   * of them, and every sound may play at least one voice.
   */
  lemma CatalogShape()
    ensures SoundDict.Keys == {Bloop, Bleep, Explosion, Mrrp, ExplosionB, ShortSong}
    ensures PickSound !in SoundDict
    ensures forall id :: id in SoundDict ==> SoundDict[id].polyphony >= 1
  {
  }

  /** Every sound a category lists is in the catalog. */
  lemma CategoryListsInCatalog()
    ensures forall c, i :: c in SoundLists && 0 <= i < |SoundLists[c]| ==> SoundLists[c][i] in SoundDict
    ensures PickCategory !in SoundLists
  {
  }

  /**
   * The sounds of a category: the stored list for a known category, nothing
   * for an unknown one (the sentinel included).
   */
  function GetSoundsFromCategory(category: CategoryId): (r: seq<SoundId>)
    ensures category in SoundLists <==> r != []
    ensures forall i :: 0 <= i < |r| ==> r[i] in SoundDict
    ensures Seqs.NoDuplicates(r)
  {
    if category in SoundLists then SoundLists[category] else []
  }
}
