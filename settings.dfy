/**
 * Platform settings kept in browser storage under "lawflow.platform.settings.v1":
 * the default project background and the list density, read back with
 * defaults for anything missing or malformed.
 */
module Settings {

  const DefaultBg: string := "#0b1220"

  datatype Density = Comfort | Compact

  datatype PlatformSettings = PlatformSettings(defaultProjectBg: string, density: Density)

  const Defaults: PlatformSettings := PlatformSettings(DefaultBg, Comfort)

  /** A property of the parsed JSON value: a string, or anything else (missing, a number, an object…). */
  datatype Field = Str(s: string) | Other

  /**
   * What storage holds under the settings key: nothing (or the empty string),
   * text that does not parse or whose properties cannot be read (`null`), or a
   * parsed value with its two properties.
   */
  datatype Stored = Absent | Unparsable | Json(defaultProjectBg: Field, density: Field)

  function DensityName(d: Density): string
  {
    if d == Compact then "Compact" else "Comfort"
  }

  /** `loadSettings`: each property is taken only when it has the expected form. */
  function LoadSettings(stored: Stored): (r: PlatformSettings)
    ensures !stored.Json? ==> r == Defaults
    ensures stored.Json? ==> (r.density == Compact <==> stored.density == Str("Compact"))
    ensures stored.Json? && stored.defaultProjectBg.Str? ==> r.defaultProjectBg == stored.defaultProjectBg.s
    ensures stored.Json? && !stored.defaultProjectBg.Str? ==> r.defaultProjectBg == DefaultBg
  {
    match stored
    case Json(bg, density) =>
      PlatformSettings(
        if bg.Str? then bg.s else DefaultBg,
        if density == Str("Compact") then Compact else Comfort)
    case _ => Defaults
  }

  /** `saveSettings`: the JSON object with both properties as strings. */
  function SaveSettings(s: PlatformSettings): (r: Stored)
    ensures r.Json? && r.defaultProjectBg == Str(s.defaultProjectBg)
  {
    Json(Str(s.defaultProjectBg), Str(DensityName(s.density)))
  }

  /** What is saved loads back unchanged. */
  lemma SaveThenLoad(s: PlatformSettings)
    ensures LoadSettings(SaveSettings(s)) == s
  {
  }

  /** Only the exact text "Compact" selects the compact density; any other stored text is Comfort. */
  lemma OnlyExactCompact(bg: Field, text: string)
    requires text != "Compact"
    ensures LoadSettings(Json(bg, Str(text))).density == Comfort
  {
  }

  /** The ten swatches the settings page offers. */
  const Palette: seq<string> := ["#0b1220", "#071a12", "#1b1020", "#0d1726", "#151022",
                                 "#10141b", "#0b1b2b", "#132018", "#1b140c", "#14141a"]

  lemma DefaultIsFirstSwatch()
    ensures |Palette| == 10 && Palette[0] == DefaultBg
  {
  }

  function DensityHelp(d: Density): string
  {
    if d == Compact then "More rows on screen" else "More breathing room"
  }

  /** The settings page's state and what it last wrote to storage. */
  class SettingsPanel {
    var settings: PlatformSettings
    var stored: Stored

    /** The state starts from `loadSettings` of what storage holds. */
    constructor(stored0: Stored)
      ensures settings == LoadSettings(stored0) && stored == stored0
    {
      settings := LoadSettings(stored0);
      stored := stored0;
    }

    /** A swatch click: only the background changes, and the result is saved at once. */
    method PickSwatch(c: string)
      modifies this
      ensures settings == old(settings).(defaultProjectBg := c)
      ensures stored == SaveSettings(settings)
      ensures LoadSettings(stored) == settings
    {
      settings := settings.(defaultProjectBg := c);
      stored := SaveSettings(settings);
      SaveThenLoad(settings);
    }

    /** A density button: only the density changes, and the result is saved at once. */
    method PickDensity(d: Density)
      modifies this
      ensures settings == old(settings).(density := d)
      ensures stored == SaveSettings(settings)
      ensures LoadSettings(stored) == settings
    {
      settings := settings.(density := d);
      stored := SaveSettings(settings);
      SaveThenLoad(settings);
    }
  }
}
