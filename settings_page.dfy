/**
 * The settings page (app/settings/page.tsx): the savings value typed in, its clamping by mode,
 * and the settings patch `save` writes.
 */
module SettingsPage {
  import opened Wrappers
  import opened Types
  import opened Finance
  import opened Store

  /** `parsed`: `Number(value)` when that is finite, otherwise 0. `n` is `Number(value)`. */
  function Parsed(n: Num): (r: real)
    ensures n.Finite? ==> r == n.value
    ensures !n.Finite? ==> r == 0.0
  {
    N(n)
  }

  /** The value `save` stores: within [0, 100] as a percentage, at least 0 as an amount. */
  function ClampedSavings(mode: SavingsMode, parsed: real): (r: real)
    ensures r >= 0.0
    ensures mode == Percent ==> r <= 100.0
    ensures mode == Percent && 0.0 <= parsed <= 100.0 ==> r == parsed
    ensures mode == Fixed && parsed >= 0.0 ==> r == parsed
    ensures parsed < 0.0 ==> r == 0.0
    ensures mode == Percent && parsed > 100.0 ==> r == 100.0
  {
    if mode == Percent then Max(0.0, Min(100.0, parsed)) else Max(0.0, parsed)
  }

  /** The patch `save` sends: the chosen mode and the clamped value, nothing else. */
  function SavePatch(mode: SavingsMode, n: Num): (p: SettingsPatch)
    ensures p.savingsMode == Some(mode) && p.activeSubGroupId.None?
    ensures p.savingsValue == Some(Finite(ClampedSavings(mode, Parsed(n))))
  {
    SettingsPatch(Some(mode), Some(Finite(ClampedSavings(mode, Parsed(n)))), None)
  }

  /**
   * After `save` the settings hold the chosen mode and a value in its range; the active group
   * and everything outside the settings are kept.
   */
  lemma SaveKeepsRest(s: StoreState, mode: SavingsMode, n: Num)
    ensures var r := SettingsUpdated(s, SavePatch(mode, n));
            && r.settings.savingsMode == mode
            && r.settings.activeSubGroupId == s.settings.activeSubGroupId
            && r.settings.savingsValue.Finite? && r.settings.savingsValue.value >= 0.0
            && (mode == Percent ==> r.settings.savingsValue.value <= 100.0)
            && r.(settings := s.settings) == s
  {
  }

  /** Saving the value already stored, when it is in range for the mode, keeps it as it is. */
  lemma SaveInRangeUnchanged(s: StoreState, mode: SavingsMode)
    requires s.settings.savingsValue.Finite? && s.settings.savingsValue.value >= 0.0
    requires mode == Percent ==> s.settings.savingsValue.value <= 100.0
    ensures SettingsUpdated(s, SavePatch(mode, s.settings.savingsValue)).settings
            == s.settings.(savingsMode := mode)
  {
  }

  /** The settings form: the chosen mode and the value as typed. */
  class SettingsForm {
    var mode: SavingsMode
    var value: string

    /** The form starts from the stored mode and the stored value's text. */
    constructor(stored: SavingsMode, valueText: string)
      ensures mode == stored && value == valueText
    {
      mode := stored;
      value := valueText;
    }

    /** `save`: one settings write; `n` is `Number(value)`. */
    method Save(store: StateStore, n: Num)
      modifies store
      ensures store.state == SettingsUpdated(old(store.state), SavePatch(mode, n))
    {
      store.UpdateSettings(SavePatch(mode, n));
    }
  }
}
