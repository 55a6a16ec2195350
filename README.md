# Accessibility settings store — a Dafny model

This project models the `useAccessibility` hook of an accessibility
preferences panel. The hook holds one settings record and loads it from
`localStorage` when it is created. It changes one field at a time. After
every change an effect saves the record in the `'accessibility-settings'`
slot and applies it to the document's root element through the inline
font size and six managed class names. A feedback sound plays only when
`soundFeedback` is on.

Modules, one per concern:

- `AccessibilitySettings` (settings.dfy): the record, its defaults, the
  field names with their values, and `Update`. `Update` is the copy-on-write
  `{ ...prev, [key]: value }`.
- `SettingsJson` (json.dfy): `Encode` is the exact text `JSON.stringify`
  writes for a record, with the keys in the order of the defaults. The
  object spread keeps that order. `Decode` reads such a text back, and it
  recognises exactly the texts `Encode` produces.
- `Browser` (browser.dfy): the browser objects the hook touches. The root
  element's `classList` is an ordered token list without duplicates, and
  its inline `fontSize` is a string. `localStorage` is a map from strings
  to strings. The audio output records the tones it was asked to play.
- `Projection` (projection.dfy): `Projected` gives the class list after the
  effect, built from one step per `classList.add`/`remove` call, in the
  effect's order. The lemmas in this module state what that list contains.
- `Hook` (hook.dfy): the initial `Load` and the hook as a class. Its
  `Effect` method runs the effect statement by statement, `UpdateSetting`
  changes the record, `PlayFeedbackSound` is the gated tone, and `Mount`
  creates the hook.

In three places the code does something other than what a reader might
expect, and the model follows the code:

- A non-empty saved text goes straight to `JSON.parse` (line 25), with no
  validation and no `try`/`catch`. A saved text that is not one the hook
  itself writes therefore never falls back to the defaults: malformed JSON
  makes the initialiser throw, and any other JSON becomes the record
  unvalidated. `Load` returns `Unrecognised` for both, and `Mount` then
  yields no hook and changes nothing; the model does not tell the two apart.
- The reduced-motion class is `reduce-motion` (lines 58, 60).
- `fontSize` is not kept within 12..24: `Update` stores any integer.

Each run of the effect removes the theme class and appends it again. So the
*set* of classes is the same after one run or two (`ProjectedIdempotent`),
but their *order* can differ (`ProjectedTwiceReorders`).

## Model

| member | source | states |
|---|---|---|
| AccessibilitySettings.FieldsDetermineRecord | src/hooks/useAccessibility.ts:3-10 | the six fields make up the whole record: two records equal on every field are equal |
| AccessibilitySettings.Update | src/hooks/useAccessibility.ts:30-38 | the updated record has `value` in field `key` and the previous value in every other field; any integer font size is stored unclamped |
| AccessibilitySettings.UpdateIsUnique | src/hooks/useAccessibility.ts:34-36 | any record with `key` set to `value` and every other field unchanged is the update: the copy changes one field and nothing else |
| AccessibilitySettings.UpdateFontSizeUnclamped | src/hooks/useAccessibility.ts:30-37 | a font size outside 12..24 is stored as given, and the theme stays as it was |
| SettingsJson.Encode | src/hooks/useAccessibility.ts:41 | the saved text is never empty, so a saved record is never read back as a missing slot |
| SettingsJson.Decode | src/hooks/useAccessibility.ts:25 | a text it accepts is exactly the saved text of the record it returns |
| SettingsJson.IntText | src/hooks/useAccessibility.ts:41 | the decimal text of an integer, as `JSON.stringify` and a template literal write it, is never empty |
| SettingsJson.IntTokenOf | src/hooks/useAccessibility.ts:25 | the decimal text of any integer, followed by something other than a digit, reads back as that integer with the rest left over |
| SettingsJson.DecodeEncode | src/hooks/useAccessibility.ts:24-25 | reading back the text saved for a record gives that record |
| SettingsJson.DecodeExactlyEncodings | src/hooks/useAccessibility.ts:24-25 | a text reads as record `s` if and only if it is the text saved for `s` |
| SettingsJson.EncodeInjective | src/hooks/useAccessibility.ts:41 | different records are saved as different texts |
| Browser.RootElement.Add | src/hooks/useAccessibility.ts:51 | `classList.add` appends a token that is absent and leaves the list alone otherwise, keeping it free of duplicates |
| Browser.RootElement.Remove | src/hooks/useAccessibility.ts:64 | `classList.remove` takes out the given tokens and keeps the others in order |
| Browser.RootElement.SetFontSize | src/hooks/useAccessibility.ts:47 | the inline font size becomes the given text and the class list is unchanged |
| Browser.LocalStorage.GetItem | src/hooks/useAccessibility.ts:24 | the stored text under the key, or none when the key is absent |
| Browser.LocalStorage.SetItem | src/hooks/useAccessibility.ts:41 | the key maps to the new text and every other key is unchanged |
| Browser.AudioOutput.Play | src/hooks/useAccessibility.ts:79-91 | one session plays exactly one tone |
| Projection.Projected | src/hooks/useAccessibility.ts:49-72 | the class of the record's theme is always present after the effect; the lemmas below state the rest of the list |
| Projection.ToggledAt | src/hooks/useAccessibility.ts:50-54 | one `add`/`remove` branch on a flag: its class is present afterwards exactly when the flag holds, and every other class exactly when it was present before (likewise lines 57-61 and 68-72) |
| Projection.ThemeClassIsManaged | src/hooks/useAccessibility.ts:64-65 | the class added for a theme is one of the three removed just before, and different themes give different classes |
| Projection.ProjectedMembers | src/hooks/useAccessibility.ts:47-72 | after the effect a managed class is present exactly when the record calls for it, and any other class exactly when it was present before |
| Projection.ProjectedFlags | src/hooks/useAccessibility.ts:49-72 | `high-contrast`, `reduce-motion` and `enhanced-keyboard` are present if and only if `highContrast`, `reduceMotion` and `keyboardNavigation` hold |
| Projection.ProjectedTheme | src/hooks/useAccessibility.ts:63-65 | exactly one theme class is present afterwards, that of `colorTheme`, whichever was there before |
| Projection.ProjectedUnmanaged | src/hooks/useAccessibility.ts:44-72 | the classes outside the six managed ones are the same, in the same order, before and after |
| Projection.ProjectedNoDuplicates | src/hooks/useAccessibility.ts:50-72 | the class list stays free of duplicates |
| Projection.ProjectedIdempotent | src/hooks/useAccessibility.ts:44-72 | running the effect twice with the same record leaves the same set of classes as running it once |
| Projection.ProjectedDefaultsOnEmpty | src/hooks/useAccessibility.ts:47-72 | on an empty class list the defaults give `theme-default` then `enhanced-keyboard` |
| Projection.ProjectedDefaultsAgain | src/hooks/useAccessibility.ts:64-65 | a second run for the defaults moves `theme-default` behind `enhanced-keyboard` |
| Projection.ProjectedTwiceReorders | src/hooks/useAccessibility.ts:64-65 | the class order after two runs can differ from the order after one |
| Hook.Load | src/hooks/useAccessibility.ts:12-28 | the defaults (`Defaults`: high contrast off, reduced motion off, font size 16, the default theme, sound off, keyboard navigation on) without a window or with a missing or empty slot; otherwise the record whose saved text the slot holds, unmerged, or `Unrecognised` (never the defaults) when the slot holds no record's text |
| Hook.FontSizeText | src/hooks/useAccessibility.ts:47 | the inline font size `${fontSize}px` reads back as the number followed by the unit `px` |
| Hook.LoadAfterStore | src/hooks/useAccessibility.ts:24-25 | loading the text saved for a record gives back exactly that record |
| Hook.AccessibilityHook.constructor | src/hooks/useAccessibility.ts:22 | a hook starts with the given record, bound to the given storage, root element and audio output |
| Hook.AccessibilityHook.Effect | src/hooks/useAccessibility.ts:40-74 | the slot holds the record's text and nothing else in storage changes; the font size is `${fontSize}px`; the class list is the projection of the old one, with the unmanaged classes kept in order; a later load gives the record back |
| Hook.AccessibilityHook.UpdateSetting | src/hooks/useAccessibility.ts:30-74 | the record changes in field `key` only; in a browser the effect then runs: the slot holds the new record's text with every other key unchanged, the class list is the projection of the old one with the unmanaged classes kept in order, the font size is `${fontSize}px`, and a reload returns the record; without a window storage, class list and font size stay as they were |
| Hook.AccessibilityHook.PlayFeedbackSound | src/hooks/useAccessibility.ts:76-93 | exactly one 800 Hz tone is played when `soundFeedback` is on and there is a window, and nothing happens otherwise |
| Hook.Mount | src/hooks/useAccessibility.ts:22-74 | a new hook exists exactly when the load gives a record; it holds that record, and in a browser the first effect has run, so the slot holds the record's text, the class list is the projection of the old one with the unmanaged classes in order, and the font size is `${fontSize}px`; with no hook, or without a window, storage, class list and font size stay as they were |
| Hook.MountThenToggle | src/hooks/useAccessibility.ts:22-74 | on the page's existing storage and root element, a mounted hook can go on to turn high contrast on: the record then has it on, the slot holds that record's text and `high-contrast` is in the class list |
| Hook.ReloadScenario | src/hooks/useAccessibility.ts:22-41 | starting from an empty slot, turning high contrast on and setting the font size to 12, a reload yields `{true, false, 12, default, false, true}` |

## Left out

- SettingsJson.Decode: recognises only the texts `JSON.stringify` writes for a record. Any other non-empty text, such as JSON with spaces, reordered keys, a different shape or a syntax error, is `Unrecognised`. The model does not say whether `JSON.parse` throws on such a text or returns a value that the hook would then use unchecked.
- Hook.Mount: `None` stands for two different outcomes of the program. On malformed JSON the initialiser throws and no hook comes into being. On other JSON that the hook did not write itself, such as the record with reordered keys or extra spaces, the program mounts with the parsed value unvalidated. The model does not distinguish these, and does not model the second.
- Font sizes are whole numbers. The JavaScript `number` could also be fractional, but the slider that sets it has step 1. The model's integers are unbounded, and `IntText`, `Encode` and `FontSizeText` write every integer in plain decimal. That text is exact only for safe integers (magnitude up to 2^53 - 1) below 10^21. The model does not capture JavaScript's exponent form for larger magnitudes (`1e+21`, so `1e+21px` as a font size), nor the loss of precision beyond 2^53.
- Browser.RootElement.SetFontSize: stores the text verbatim. A browser ignores an invalid value such as a negative size, and the model does not capture that.
- `classList` token validation (an empty token or one with spaces throws) is not modelled. Every token the effect uses is a fixed, valid name.
- Exceptions from `localStorage` are not modelled (storage disabled, or the quota exceeded on `setItem`).
- React's scheduling is reduced to "the effect runs right after each change, and on mount, in a browser". Batching and render timing are left out. Server rendering is modelled as `hasWindow` false, where no effect runs.
- Hook.AccessibilityHook.PlayFeedbackSound: reads the hook's current record. In the program it reads the record of the render that created it, so a call in the same handler right after `updateSetting` still sees the old record.
- Hook.AccessibilityHook.PlayFeedbackSound: the Web Audio calls (oscillator, gain ramp, start and stop times) are reduced to recording one tone value. The frequency, the gains and the duration are kept as exact whole-number constants.
- src/components/accessibility/AccessibilitySettings.tsx is not part of this model: it is view markup whose handlers call `updateSetting` and then `playFeedbackSound`. Two behaviours of that file are therefore not captured. Its sound gate reads the record from before the update. Its `as any` cast lets any string reach `colorTheme`.
- src/pages/Index.tsx and src/pages/AccessibilityPage.tsx are not part of this model: they only lay out and route.
