/**
 * The Preloader scene's bookkeeping: the `SoundActive` default, and the registry entries that
 * `loadIcons` and `loadSounds` write for every category of the icon and sound manifests. The
 * loader calls that fetch the files themselves are not part of this model.
 */
module Preloader {
  import opened AssetKeys

  /** What the scenes keep in the game registry: a list of asset keys, or the sound switch. */
  datatype RegistryValue = KeyList(keys: seq<string>) | Flag(on: bool)

  type RegistryData = map<string, RegistryValue>

  /** One manifest entry, in `Object.entries` order: a category and its file urls. */
  type Entry = (string, seq<string>)

  const SoundActiveKey: string := "SoundActive"

  /** `registry.get(key) || []` read as a key list. */
  function KeyListAt(data: RegistryData, key: string): (keys: seq<string>)
    ensures key in data && data[key].KeyList? ==> keys == data[key].keys
    ensures (key !in data || !data[key].KeyList?) ==> keys == []
  {
    if key in data && data[key].KeyList? then data[key].keys else []
  }

  /** The registry after `loadIcons(category, urls)` with `n` urls. */
  function WithIcons(data: RegistryData, category: string, n: nat): RegistryData
  {
    data[IconsRegistryKey(category) := KeyList(IconKeys(category, n))]
  }

  /** The registry after `loadSounds(category, entries)`: one key list per subcategory, in order. */
  function WithSounds(data: RegistryData, category: string, entries: seq<Entry>): RegistryData
  {
    if entries == [] then data
    else
      var last := entries[|entries| - 1];
      WithSounds(data, category, entries[..|entries| - 1])[SoundsRegistryKey(category, last.0) := KeyList(SoundKeys(category, last.0, |last.1|))]
  }

  /** The registry after the icon manifest handler has run `loadIcons` on every category. */
  function WithIconManifest(data: RegistryData, manifest: seq<Entry>): RegistryData
  {
    if manifest == [] then data
    else
      var last := manifest[|manifest| - 1];
      WithIcons(WithIconManifest(data, manifest[..|manifest| - 1]), last.0, |last.1|)
  }

  /** The registry after the sound manifest handler has run `loadSounds` on every category. */
  function WithSoundManifest(data: RegistryData, manifest: seq<(string, seq<Entry>)>): RegistryData
  {
    if manifest == [] then data
    else
      var last := manifest[|manifest| - 1];
      WithSounds(WithSoundManifest(data, manifest[..|manifest| - 1]), last.0, last.1)
  }

  /** Object keys: no name occurs twice in a manifest level. */
  predicate DistinctNames<T>(entries: seq<(string, T)>)
  {
    forall i, j :: 0 <= i < j < |entries| ==> entries[i].0 != entries[j].0
  }

  /**
   * After the icon manifest is loaded, each category's icon list holds one key per url,
   * `<category>_<i>` in url order.
   */
  lemma {:induction false} IconManifestLookup(data: RegistryData, manifest: seq<Entry>, j: nat)
    requires DistinctNames(manifest) && j < |manifest|
    ensures KeyListAt(WithIconManifest(data, manifest), IconsRegistryKey(manifest[j].0))
            == IconKeys(manifest[j].0, |manifest[j].1|)
  {
    var n := |manifest|;
    var init := manifest[..n - 1];
    if j < n - 1 {
      assert init[j] == manifest[j];
      assert DistinctNames(init);
      IconManifestLookup(data, init, j);
      if IconsRegistryKey(manifest[n - 1].0) == IconsRegistryKey(manifest[j].0) {
        IconsRegistryKeyInjective(manifest[n - 1].0, manifest[j].0);
      }
    }
  }

  /** Loading icons only writes `<category>Icons` keys; every other entry, sound lists and the sound switch included, is kept. */
  lemma {:induction false} IconManifestKeepsOthers(data: RegistryData, manifest: seq<Entry>, key: string)
    requires forall i :: 0 <= i < |manifest| ==> key != IconsRegistryKey(manifest[i].0)
    ensures key in WithIconManifest(data, manifest) <==> key in data
    ensures key in data ==> WithIconManifest(data, manifest)[key] == data[key]
  {
    if manifest != [] {
      IconManifestKeepsOthers(data, manifest[..|manifest| - 1], key);
    }
  }

  /**
   * After `loadSounds(category, entries)`, each subcategory's list holds one key per file,
   * `<category>_<sub>_<i>` in file order.
   */
  lemma {:induction false} SoundsLookup(data: RegistryData, category: string, entries: seq<Entry>, j: nat)
    requires DistinctNames(entries) && j < |entries|
    ensures KeyListAt(WithSounds(data, category, entries), SoundsRegistryKey(category, entries[j].0))
            == SoundKeys(category, entries[j].0, |entries[j].1|)
  {
    var n := |entries|;
    var init := entries[..n - 1];
    if j < n - 1 {
      assert init[j] == entries[j];
      assert DistinctNames(init);
      SoundsLookup(data, category, init, j);
      if SoundsRegistryKey(category, entries[n - 1].0) == SoundsRegistryKey(category, entries[j].0) {
        SoundsRegistryKeyInjective(category, entries[n - 1].0, entries[j].0);
      }
    }
  }

  /** Loading sounds never touches an icon list. */
  lemma {:induction false} SoundsKeepIcons(data: RegistryData, category: string, entries: seq<Entry>, c: string)
    ensures KeyListAt(WithSounds(data, category, entries), IconsRegistryKey(c)) == KeyListAt(data, IconsRegistryKey(c))
  {
    if entries != [] {
      SoundsKeepIcons(data, category, entries[..|entries| - 1], c);
      IconsAndSoundsKeysDisjoint(c, category, entries[|entries| - 1].0);
    }
  }

  /** The scene registry shared by all scenes. */
  class Registry {
    var data: RegistryData

    constructor ()
      ensures data == map[]
    {
      data := map[];
    }

    /** `init`: switch sound on by default, keeping a value a previous visit already set. */
    method InitSoundFlag()
      modifies this
      ensures SoundActiveKey in data
      ensures SoundActiveKey in old(data) ==> data == old(data)
      ensures SoundActiveKey !in old(data) ==> data == old(data)[SoundActiveKey := Flag(true)]
    {
      if SoundActiveKey !in data {
        data := data[SoundActiveKey := Flag(true)];
      }
    }

    /** `loadIcons`: one key per url, collected in order and stored under `<category>Icons`. */
    method LoadIcons(category: string, urls: seq<string>)
      modifies this
      ensures data == WithIcons(old(data), category, |urls|)
    {
      var keys: seq<string> := [];
      var i := 0;
      while i < |urls|
        invariant 0 <= i <= |urls|
        invariant keys == IconKeys(category, i)
      {
        keys := keys + [IconKey(category, i)];
        i := i + 1;
      }
      data := data[IconsRegistryKey(category) := KeyList(keys)];
    }

    /** `loadSounds`: for each subcategory, one key per file, stored under `<category>_<sub>Sounds`. */
    method LoadSounds(category: string, entries: seq<Entry>)
      modifies this
      ensures data == WithSounds(old(data), category, entries)
    {
      var e := 0;
      while e < |entries|
        invariant 0 <= e <= |entries|
        invariant data == WithSounds(old(data), category, entries[..e])
      {
        var subCat, files := entries[e].0, entries[e].1;
        var keys: seq<string> := [];
        var i := 0;
        while i < |files|
          invariant 0 <= i <= |files|
          invariant keys == SoundKeys(category, subCat, i)
        {
          keys := keys + [SoundKey(category, subCat, i)];
          i := i + 1;
        }
        assert entries[..e + 1][..e] == entries[..e];
        data := data[SoundsRegistryKey(category, subCat) := KeyList(keys)];
        e := e + 1;
      }
      assert entries[..e] == entries;
    }

    /** The `filecomplete-json-icons` handler: `loadIcons` for every manifest category. */
    method LoadIconManifest(manifest: seq<Entry>)
      modifies this
      ensures data == WithIconManifest(old(data), manifest)
    {
      var c := 0;
      while c < |manifest|
        invariant 0 <= c <= |manifest|
        invariant data == WithIconManifest(old(data), manifest[..c])
      {
        assert manifest[..c + 1][..c] == manifest[..c];
        LoadIcons(manifest[c].0, manifest[c].1);
        c := c + 1;
      }
      assert manifest[..c] == manifest;
    }

    /** The `filecomplete-json-sounds` handler: `loadSounds` for every manifest category. */
    method LoadSoundManifest(manifest: seq<(string, seq<Entry>)>)
      modifies this
      ensures data == WithSoundManifest(old(data), manifest)
    {
      var c := 0;
      while c < |manifest|
        invariant 0 <= c <= |manifest|
        invariant data == WithSoundManifest(old(data), manifest[..c])
      {
        assert manifest[..c + 1][..c] == manifest[..c];
        LoadSounds(manifest[c].0, manifest[c].1);
        c := c + 1;
      }
      assert manifest[..c] == manifest;
    }
  }
}
