/**
 * The asset key names the preloader builds from the icon and sound manifests, and that the
 * scenes look up again: `<category>_<i>` for an icon, `<category>Icons` for a category's icon
 * list, `<category>_<sub>_<i>` for a sound, `<category>_<sub>Sounds` for a sound list.
 */
module AssetKeys {

  /** The decimal digit character for `d`. */
  function DigitChar(d: nat): (c: char)
    requires d < 10
    ensures '0' <= c <= '9'
  {
    (d + '0' as int) as char
  }

  /** Template-literal formatting of a non-negative integer: decimal, no sign, no leading zeros. */
  function NatToString(n: nat): (s: string)
    ensures |s| >= 1
    ensures forall i :: 0 <= i < |s| ==> '0' <= s[i] <= '9'
    ensures |s| == 1 <==> n < 10
    ensures s[|s| - 1] == DigitChar(n % 10)
  {
    if n < 10 then [DigitChar(n)] else NatToString(n / 10) + [DigitChar(n % 10)]
  }

  /** Different numbers print differently. */
  lemma {:induction false} NatToStringInjective(a: nat, b: nat)
    requires NatToString(a) == NatToString(b)
    ensures a == b
  {
    var s := NatToString(a);
    assert DigitChar(a % 10) == DigitChar(b % 10);
    if a >= 10 {
      assert NatToString(a / 10) == s[..|s| - 1] == NatToString(b / 10);
      NatToStringInjective(a / 10, b / 10);
    }
  }

  /** `${category}_${i}`: the texture key of the category's `i`-th icon. */
  function IconKey(category: string, i: nat): string
  {
    category + "_" + NatToString(i)
  }

  /** `${category}Icons`: the registry key of a category's icon key list. */
  function IconsRegistryKey(category: string): string
  {
    category + "Icons"
  }

  /** `${category}_${subCat}_${i}`: the audio key of a subcategory's `i`-th sound. */
  function SoundKey(category: string, subCat: string, i: nat): string
  {
    category + "_" + subCat + "_" + NatToString(i)
  }

  /** `${category}_${subCat}Sounds`: the registry key of a subcategory's sound key list. */
  function SoundsRegistryKey(category: string, subCat: string): string
  {
    category + "_" + subCat + "Sounds"
  }

  /** Two icon keys of one category coincide only for the same index. */
  lemma IconKeyInjective(category: string, i: nat, j: nat)
    requires IconKey(category, i) == IconKey(category, j)
    ensures i == j
  {
    var p := category + "_";
    assert NatToString(i) == IconKey(category, i)[|p|..];
    assert NatToString(j) == IconKey(category, j)[|p|..];
    NatToStringInjective(i, j);
  }

  /** Two sound keys of one subcategory coincide only for the same index. */
  lemma SoundKeyInjective(category: string, subCat: string, i: nat, j: nat)
    requires SoundKey(category, subCat, i) == SoundKey(category, subCat, j)
    ensures i == j
  {
    var p := category + "_" + subCat + "_";
    assert NatToString(i) == SoundKey(category, subCat, i)[|p|..];
    assert NatToString(j) == SoundKey(category, subCat, j)[|p|..];
    NatToStringInjective(i, j);
  }

  /** Distinct categories keep their icon lists under distinct registry keys. */
  lemma IconsRegistryKeyInjective(a: string, b: string)
    requires IconsRegistryKey(a) == IconsRegistryKey(b)
    ensures a == b
  {
    assert a == IconsRegistryKey(a)[..|a|];
    assert b == IconsRegistryKey(b)[..|b|];
  }

  /** Within one category, distinct subcategories keep their sound lists under distinct keys. */
  lemma SoundsRegistryKeyInjective(category: string, a: string, b: string)
    requires SoundsRegistryKey(category, a) == SoundsRegistryKey(category, b)
    ensures a == b
  {
    var p := category + "_";
    assert a == SoundsRegistryKey(category, a)[|p|..|p| + |a|];
    assert b == SoundsRegistryKey(category, b)[|p|..|p| + |b|];
  }

  /** An icon list key never names a sound list: the two suffixes differ. */
  lemma IconsAndSoundsKeysDisjoint(c: string, d: string, subCat: string)
    ensures IconsRegistryKey(c) != SoundsRegistryKey(d, subCat)
  {
    var k1, k2 := IconsRegistryKey(c), SoundsRegistryKey(d, subCat);
    assert k1[|k1| - 4] == 'c';
    assert k2[|k2| - 4] == 'u';
  }

  /** The keys `loadIcons` generates for `n` urls, in order. */
  function IconKeys(category: string, n: nat): seq<string>
  {
    if n == 0 then [] else IconKeys(category, n - 1) + [IconKey(category, n - 1)]
  }

  /** One key per url, key `i` carrying index `i`, and no key twice. */
  lemma {:induction false} IconKeysSpec(category: string, n: nat)
    ensures |IconKeys(category, n)| == n
    ensures forall i :: 0 <= i < n ==> IconKeys(category, n)[i] == IconKey(category, i)
    ensures forall i, j :: 0 <= i < j < n ==> IconKeys(category, n)[i] != IconKeys(category, n)[j]
  {
    if n > 0 {
      IconKeysSpec(category, n - 1);
    }
    forall i, j | 0 <= i < j < n
      ensures IconKeys(category, n)[i] != IconKeys(category, n)[j]
    {
      if IconKey(category, i) == IconKey(category, j) {
        IconKeyInjective(category, i, j);
      }
    }
  }

  /** The keys `loadSounds` generates for one subcategory with `n` files, in order. */
  function SoundKeys(category: string, subCat: string, n: nat): seq<string>
  {
    if n == 0 then [] else SoundKeys(category, subCat, n - 1) + [SoundKey(category, subCat, n - 1)]
  }

  /** One key per file, key `i` carrying index `i`, and no key twice. */
  lemma {:induction false} SoundKeysSpec(category: string, subCat: string, n: nat)
    ensures |SoundKeys(category, subCat, n)| == n
    ensures forall i :: 0 <= i < n ==> SoundKeys(category, subCat, n)[i] == SoundKey(category, subCat, i)
    ensures forall i, j :: 0 <= i < j < n ==> SoundKeys(category, subCat, n)[i] != SoundKeys(category, subCat, n)[j]
  {
    if n > 0 {
      SoundKeysSpec(category, subCat, n - 1);
    }
    forall i, j | 0 <= i < j < n
      ensures SoundKeys(category, subCat, n)[i] != SoundKeys(category, subCat, n)[j]
    {
      if SoundKey(category, subCat, i) == SoundKey(category, subCat, j) {
        SoundKeyInjective(category, subCat, i, j);
      }
    }
  }
}
