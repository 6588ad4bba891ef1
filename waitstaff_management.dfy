/** pages/WaitstaffManagement.tsx: the two waitstaff permission switches
    and the receipt-width buttons, each a one-field copy of the settings
    record. */
module WaitstaffManagement {
  import opened Types

  /** The keys the page's switches toggle. */
  predicate IsPermission(k: SettingsKey)
  {
    k == CanWaitstaffFinishOrder || k == CanWaitstaffCancelItems
  }

  /** `togglePermission(key)`: the flag under `key` negated, everything
      else as it was. */
  function TogglePermission(s: StoreSettings, k: SettingsKey): (r: StoreSettings)
    requires IsPermission(k)
    ensures Get(r, k) == Flag(!Get(s, k).on)
    ensures forall j :: j != k ==> Get(r, j) == Get(s, j)
  {
    With(s, k, Flag(!Get(s, k).on))
  }

  /** Toggling the same permission twice restores the settings. */
  lemma ToggleTwiceRestores(s: StoreSettings, k: SettingsKey)
    requires IsPermission(k)
    ensures TogglePermission(TogglePermission(s, k), k) == s
  {
    SettingsExtensionality(TogglePermission(TogglePermission(s, k), k), s);
  }

  /** The two switches are independent: toggling one then the other is the
      same as the other order. */
  lemma TogglesCommute(s: StoreSettings, k1: SettingsKey, k2: SettingsKey)
    requires IsPermission(k1) && IsPermission(k2)
    ensures TogglePermission(TogglePermission(s, k1), k2) == TogglePermission(TogglePermission(s, k2), k1)
  {
    var a := TogglePermission(TogglePermission(s, k1), k2);
    var b := TogglePermission(TogglePermission(s, k2), k1);
    SettingsExtensionality(a, b);
  }

  /** The '80mm' and '58mm' buttons: the width set, everything else as it
      was. */
  function SetPrinterWidth(s: StoreSettings, w: PrinterWidth): (r: StoreSettings)
    ensures Get(r, ThermalPrinterWidth) == Width(w)
    ensures forall j :: j != ThermalPrinterWidth ==> Get(r, j) == Get(s, j)
  {
    With(s, ThermalPrinterWidth, Width(w))
  }

  /** Pressing a width button twice is pressing it once, and the last
      button pressed decides the width. */
  lemma PrinterButtonsIdempotent(s: StoreSettings, w1: PrinterWidth, w2: PrinterWidth)
    ensures SetPrinterWidth(SetPrinterWidth(s, w1), w1) == SetPrinterWidth(s, w1)
    ensures SetPrinterWidth(SetPrinterWidth(s, w1), w2) == SetPrinterWidth(s, w2)
  {
    SettingsExtensionality(SetPrinterWidth(SetPrinterWidth(s, w1), w1), SetPrinterWidth(s, w1));
    SettingsExtensionality(SetPrinterWidth(SetPrinterWidth(s, w1), w2), SetPrinterWidth(s, w2));
  }

  /** Starting from the initial settings, one press of a permission switch
      grants that permission and leaves the other one off. */
  lemma FirstToggleGrants(k: SettingsKey)
    requires IsPermission(k)
    ensures Get(TogglePermission(InitialSettings, k), k) == Flag(true)
    ensures forall j :: IsPermission(j) && j != k ==> Get(TogglePermission(InitialSettings, k), j) == Flag(false)
  {
    InitialSettingsShape();
  }
}
