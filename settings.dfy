/**
 * The accessibility settings record, its defaults, and the single-field
 * update `updateSetting` performs (`{ ...prev, [key]: value }`).
 */
module AccessibilitySettings {

  /** The three colour themes a user can choose. */
  datatype ColorTheme = Default | Monochrome | HighContrast

  /** The string the program uses for a theme (in the JSON text and in class names). */
  function ThemeName(t: ColorTheme): string {
    match t
    case Default => "default"
    case Monochrome => "monochrome"
    case HighContrast => "high-contrast"
  }

  /**
   * The record, always fully populated. `fontSize` is a pixel count; the
   * model keeps it a whole number, as the slider that sets it has step 1.
   */
  datatype Settings = Settings(
    highContrast: bool,
    reduceMotion: bool,
    fontSize: int,
    colorTheme: ColorTheme,
    soundFeedback: bool,
    keyboardNavigation: bool)

  /** The record used when nothing is saved, or when there is no window. */
  const Defaults := Settings(
    highContrast := false,
    reduceMotion := false,
    fontSize := 16,
    colorTheme := Default,
    soundFeedback := false,
    keyboardNavigation := true)

  /** The field names, `keyof AccessibilitySettings`. */
  datatype Key =
    | HighContrastKey
    | ReduceMotionKey
    | FontSizeKey
    | ColorThemeKey
    | SoundFeedbackKey
    | KeyboardNavigationKey

  /** A field value of any of the three field types. */
  datatype Value = Flag(flag: bool) | Number(number: int) | Theme(theme: ColorTheme)

  /** `value: AccessibilitySettings[K]`: the value has the type of field `key`. */
  predicate Fits(key: Key, v: Value) {
    match key
    case FontSizeKey => v.Number?
    case ColorThemeKey => v.Theme?
    case _ => v.Flag?
  }

  /** The value of field `key` of `s`, `s[key]`. */
  function Get(s: Settings, key: Key): (v: Value)
    ensures Fits(key, v)
  {
    match key
    case HighContrastKey => Flag(s.highContrast)
    case ReduceMotionKey => Flag(s.reduceMotion)
    case FontSizeKey => Number(s.fontSize)
    case ColorThemeKey => Theme(s.colorTheme)
    case SoundFeedbackKey => Flag(s.soundFeedback)
    case KeyboardNavigationKey => Flag(s.keyboardNavigation)
  }

  /** Two records that agree on every field are the same record. */
  lemma FieldsDetermineRecord(a: Settings, b: Settings)
    requires forall k: Key :: Get(a, k) == Get(b, k)
    ensures a == b
  {
    assert Get(a, HighContrastKey) == Get(b, HighContrastKey);
    assert Get(a, ReduceMotionKey) == Get(b, ReduceMotionKey);
    assert Get(a, FontSizeKey) == Get(b, FontSizeKey);
    assert Get(a, ColorThemeKey) == Get(b, ColorThemeKey);
    assert Get(a, SoundFeedbackKey) == Get(b, SoundFeedbackKey);
    assert Get(a, KeyboardNavigationKey) == Get(b, KeyboardNavigationKey);
  }

  /**
   * The copy of `prev` with field `key` replaced by `value`. The value is
   * stored as given: a font size outside 12..24 is not clamped.
   */
  function Update(prev: Settings, key: Key, value: Value): (r: Settings)
    requires Fits(key, value)
    ensures Get(r, key) == value
    ensures forall k: Key :: k != key ==> Get(r, k) == Get(prev, k)
  {
    match key
    case HighContrastKey => prev.(highContrast := value.flag)
    case ReduceMotionKey => prev.(reduceMotion := value.flag)
    case FontSizeKey => prev.(fontSize := value.number)
    case ColorThemeKey => prev.(colorTheme := value.theme)
    case SoundFeedbackKey => prev.(soundFeedback := value.flag)
    case KeyboardNavigationKey => prev.(keyboardNavigation := value.flag)
  }

  /**
   * The contract of Update pins the result down: any record with field
   * `key` equal to `value` and every other field equal to `prev`'s is it.
   */
  lemma UpdateIsUnique(prev: Settings, key: Key, value: Value, r: Settings)
    requires Fits(key, value)
    requires Get(r, key) == value
    requires forall k: Key :: k != key ==> Get(r, k) == Get(prev, k)
    ensures r == Update(prev, key, value)
  {
    var u := Update(prev, key, value);
    forall k: Key ensures Get(r, k) == Get(u, k) {
      if k == key {
      } else {
      }
    }
    FieldsDetermineRecord(r, u);
  }

  /** Any integer given for the font size is stored unchanged, in range or not. */
  lemma UpdateFontSizeUnclamped(prev: Settings, n: int)
    ensures Update(prev, FontSizeKey, Number(n)).fontSize == n
    ensures Update(prev, FontSizeKey, Number(n)).colorTheme == prev.colorTheme
  {
  }
}
