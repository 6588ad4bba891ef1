/** pages/StoreSettingsPage.tsx: the settings form. Each switch, text box
    and colour picker replaces one field of the settings record. */
module StoreSettingsPage {
  import opened Types

  /** `handleChange(key, value)`: the settings with `value` under `key`.
      The form passes a switch's state for the three channel keys and the
      text typed or picked for the name, logo and two colours. */
  function HandleChange(s: StoreSettings, k: SettingsKey, v: SettingValue): (r: StoreSettings)
    requires Fits(k, v)
    ensures Get(r, k) == v
    ensures forall j :: j != k ==> Get(r, j) == Get(s, j)
    ensures Get(s, k) == v ==> r == s
  {
    var r := With(s, k, v);
    if Get(s, k) == v then SettingsExtensionality(r, s); r else r
  }

  /** Applying the same change twice is applying it once. */
  lemma ChangeIdempotent(s: StoreSettings, k: SettingsKey, v: SettingValue)
    requires Fits(k, v)
    ensures HandleChange(HandleChange(s, k, v), k, v) == HandleChange(s, k, v)
  {
  }

  /** Changes to different keys can be made in either order. */
  lemma ChangesCommute(s: StoreSettings, k1: SettingsKey, v1: SettingValue, k2: SettingsKey, v2: SettingValue)
    requires Fits(k1, v1) && Fits(k2, v2) && k1 != k2
    ensures HandleChange(HandleChange(s, k1, v1), k2, v2) == HandleChange(HandleChange(s, k2, v2), k1, v1)
  {
    var a := HandleChange(HandleChange(s, k1, v1), k2, v2);
    var b := HandleChange(HandleChange(s, k2, v2), k1, v1);
    forall j ensures Get(a, j) == Get(b, j) {
      if j != k1 && j != k2 {
        assert Get(a, j) == Get(s, j) == Get(b, j);
      }
    }
    SettingsExtensionality(a, b);
  }

  /** Of two changes to the same key, the second one wins. */
  lemma LastWriteWins(s: StoreSettings, k: SettingsKey, v1: SettingValue, v2: SettingValue)
    requires Fits(k, v1) && Fits(k, v2)
    ensures HandleChange(HandleChange(s, k, v1), k, v2) == HandleChange(s, k, v2)
  {
    SettingsExtensionality(HandleChange(HandleChange(s, k, v1), k, v2), HandleChange(s, k, v2));
  }

  /** A change to a key can be undone by writing back the old value. */
  lemma ChangeUndone(s: StoreSettings, k: SettingsKey, v: SettingValue)
    requires Fits(k, v)
    ensures Fits(k, Get(s, k))
    ensures HandleChange(HandleChange(s, k, v), k, Get(s, k)) == s
  {
    assert Fits(k, Get(s, k));
    SettingsExtensionality(HandleChange(HandleChange(s, k, v), k, Get(s, k)), s);
  }
}
