/**
 * The `useAccessibility` hook: the initial load of the saved record, the
 * single-field update, the effect that persists the record and applies it
 * to the root element after every change, and the feedback sound's gate.
 */
module Hook {
  import opened Wrappers
  import opened AccessibilitySettings
  import opened SettingsJson
  import opened Browser
  import opened Projection

  /** The `localStorage` key the record is saved under. */
  const SlotKey := "accessibility-settings"

  /**
   * The outcome of the initial load. `Unrecognised` is a non-empty saved
   * text that Encode writes for no record. The program hands such a text to
   * `JSON.parse` unchecked, which throws on malformed JSON and otherwise
   * yields the parsed value unvalidated; the model does not tell these
   * apart. Either way there is no fallback to the defaults.
   */
  datatype LoadOutcome = Loaded(settings: Settings) | Unrecognised(text: string)

  /**
   * The `useState` initialiser: the defaults without a window or without a
   * (non-empty) saved text, otherwise what the saved text reads as.
   */
  function Load(hasWindow: bool, saved: Option<string>): (r: LoadOutcome)
    ensures !hasWindow ==> r == Loaded(Defaults)
    ensures saved == None || saved == Some("") ==> r == Loaded(Defaults)
    ensures hasWindow && saved.Some? && saved.value != "" ==>
      (r.Loaded? ==> saved.value == Encode(r.settings))
      && (r.Unrecognised? ==> r.text == saved.value && forall s: Settings :: saved.value != Encode(s))
  {
    if hasWindow then
      if saved.Some? && saved.value != "" then
        match Decode(saved.value)
        case Some(s) => Loaded(s)
        case None =>
          assert forall s: Settings :: saved.value != Encode(s) by {
            forall s: Settings ensures saved.value != Encode(s) {
              DecodeExactlyEncodings(saved.value, s);
            }
          }
          Unrecognised(saved.value)
      else Loaded(Defaults)
    else Loaded(Defaults)
  }

  /** Saving a record and loading it again gives the record back, unmerged with the defaults. */
  lemma LoadAfterStore(s: Settings)
    ensures Load(true, Some(Encode(s))) == Loaded(s)
  {
    DecodeEncode(s);
  }

  /** The inline font size `${fontSize}px`. */
  function FontSizeText(n: int): (r: string)
    ensures IntToken(r) == Some((n, "px"))
  {
    IntTokenOf(n, "px");
    IntText(n) + "px"
  }

  /** The feedback tone: 800 Hz, gain 0.1 ramping down to 0.01, stopped after 0.1 s. */
  const FeedbackTone := Tone(frequencyHz := 800, startGainMilli := 100, endGainMilli := 10, durationMs := 100)

  /** One instance of the hook, bound to the page's storage, root element and audio output. */
  class AccessibilityHook {
    var settings: Settings
    const hasWindow: bool
    const storage: LocalStorage
    const root: RootElement
    const audio: AudioOutput

    ghost predicate Valid()
      reads this, root
    {
      root.Valid()
    }

    /**
     * The effect has run for the current record: the slot holds its text,
     * and the root element shows it. (Without a window no effect runs.)
     */
    ghost predicate Synced()
      reads this, storage, root
    {
      hasWindow ==>
        storage.GetItem(SlotKey) == Some(Encode(settings))
        && root.fontSize == FontSizeText(settings.fontSize)
        && forall x :: x in ManagedClasses ==> (x in root.classList <==> Marks(settings, x))
    }

    constructor (initial: Settings, hasWindow: bool, storage: LocalStorage, root: RootElement, audio: AudioOutput)
      requires root.Valid()
      ensures Valid()
      ensures settings == initial && this.hasWindow == hasWindow
      ensures this.storage == storage && this.root == root && this.audio == audio
    {
      settings := initial;
      this.hasWindow := hasWindow;
      this.storage := storage;
      this.root := root;
      this.audio := audio;
    }

    /** The effect body: save the record, then set the font size and the classes in turn. */
    method Effect()
      requires Valid()
      modifies storage, root
      ensures Valid()
      ensures storage.items == old(storage.items)[SlotKey := Encode(settings)]
      ensures root.fontSize == FontSizeText(settings.fontSize)
      ensures root.classList == Projected(old(root.classList), settings)
      ensures Without(root.classList, ManagedClasses) == Without(old(root.classList), ManagedClasses)
      ensures Load(true, storage.GetItem(SlotKey)) == Loaded(settings)
      ensures hasWindow ==> Synced()
    {
      storage.SetItem(SlotKey, Encode(settings));
      root.SetFontSize(FontSizeText(settings.fontSize));
      if settings.highContrast {
        root.Add(HighContrastClass);
      } else {
        root.Remove({HighContrastClass});
      }
      if settings.reduceMotion {
        root.Add(ReduceMotionClass);
      } else {
        root.Remove({ReduceMotionClass});
      }
      root.Remove(ThemeClasses);
      root.Add(ThemeClass(settings.colorTheme));
      if settings.keyboardNavigation {
        root.Add(EnhancedKeyboardClass);
      } else {
        root.Remove({EnhancedKeyboardClass});
      }
      ProjectedMembers(old(root.classList), settings);
      ProjectedUnmanaged(old(root.classList), settings);
      LoadAfterStore(settings);
    }

    /**
     * `updateSetting(key, value)`: the record becomes its copy with one
     * field replaced, and the effect runs for it.
     */
    method UpdateSetting(key: Key, value: Value)
      requires Valid() && Fits(key, value)
      modifies this, storage, root
      ensures Valid()
      ensures settings == Update(old(settings), key, value)
      ensures Get(settings, key) == value
      ensures forall k: Key :: k != key ==> Get(settings, k) == Get(old(settings), k)
      ensures Synced()
      ensures hasWindow ==> Load(true, storage.GetItem(SlotKey)) == Loaded(settings)
      ensures hasWindow ==>
        storage.items == old(storage.items)[SlotKey := Encode(settings)]
        && root.classList == Projected(old(root.classList), settings)
        && root.fontSize == FontSizeText(settings.fontSize)
      ensures hasWindow ==> Without(root.classList, ManagedClasses) == Without(old(root.classList), ManagedClasses)
      ensures !hasWindow ==>
        storage.items == old(storage.items) && root.classList == old(root.classList)
        && root.fontSize == old(root.fontSize)
    {
      settings := Update(settings, key, value);
      if hasWindow {
        Effect();
      }
    }

    /** `playFeedbackSound()`: one tone when sound feedback is on and there is a window, nothing otherwise. */
    method PlayFeedbackSound()
      modifies audio
      ensures audio.played == old(audio.played) + (if settings.soundFeedback && hasWindow then [FeedbackTone] else [])
    {
      if settings.soundFeedback && hasWindow {
        audio.Play(FeedbackTone);
      }
    }
  }

  /**
   * Mounting the hook: load the saved record and, in a browser, run the
   * effect once for it. None when the saved text is not one Encode writes:
   * the program throws on malformed JSON and mounts any other JSON
   * unvalidated, two outcomes this model does not tell apart.
   */
  method Mount(hasWindow: bool, storage: LocalStorage, root: RootElement, audio: AudioOutput)
    returns (r: Option<AccessibilityHook>)
    requires root.Valid()
    modifies storage, root
    ensures r.Some? ==> fresh(r.value)
    ensures Load(hasWindow, old(storage.GetItem(SlotKey))).Loaded? <==> r.Some?
    ensures r.Some? ==>
      r.value.settings == Load(hasWindow, old(storage.GetItem(SlotKey))).settings
      && r.value.hasWindow == hasWindow
      && r.value.storage == storage && r.value.root == root && r.value.audio == audio
      && r.value.Valid() && r.value.Synced()
    ensures r.Some? && hasWindow ==>
      storage.items == old(storage.items)[SlotKey := Encode(r.value.settings)]
      && root.classList == Projected(old(root.classList), r.value.settings)
      && root.fontSize == FontSizeText(r.value.settings.fontSize)
      && Without(root.classList, ManagedClasses) == Without(old(root.classList), ManagedClasses)
    ensures r.None? || !hasWindow ==>
      storage.items == old(storage.items) && root.classList == old(root.classList)
      && root.fontSize == old(root.fontSize)
  {
    var saved := if hasWindow then storage.GetItem(SlotKey) else None;
    match Load(hasWindow, saved) {
      case Loaded(s) =>
        var h := new AccessibilityHook(s, hasWindow, storage, root, audio);
        if hasWindow {
          h.Effect();
        }
        r := Some(h);
      case Unrecognised(_) =>
        r := None;
    }
  }

  /**
   * Mount on the page's existing storage and root element, then turn high
   * contrast on through the new hook, as a settings control does.
   */
  method MountThenToggle(storage: LocalStorage, root: RootElement, audio: AudioOutput)
    returns (r: Option<AccessibilityHook>)
    requires root.Valid()
    modifies storage, root
    ensures r.Some? ==>
      r.value.settings.highContrast
      && storage.GetItem(SlotKey) == Some(Encode(r.value.settings))
      && HighContrastClass in root.classList
  {
    r := Mount(true, storage, root, audio);
    if r.Some? {
      ghost var before := root.classList;
      r.value.UpdateSetting(HighContrastKey, Flag(true));
      ProjectedFlags(before, r.value.settings);
    }
  }

  /**
   * Start from an empty slot, turn high contrast on, set the font size to
   * 12, then mount the hook again on the same storage (a page reload).
   */
  method ReloadScenario() returns (reloaded: Settings)
    ensures reloaded == Settings(true, false, 12, Default, false, true)
  {
    var storage := new LocalStorage(map[]);
    var root := new RootElement([]);
    var audio := new AudioOutput();
    var first := Mount(true, storage, root, audio);
    assert first.Some?;
    var hook := first.value;
    assert hook.settings == Defaults;
    hook.UpdateSetting(HighContrastKey, Flag(true));
    hook.UpdateSetting(FontSizeKey, Number(12));
    var expected := Settings(true, false, 12, Default, false, true);
    assert hook.settings == expected by {
      UpdateIsUnique(Defaults.(highContrast := true), FontSizeKey, Number(12), expected);
    }
    var second := Mount(true, storage, root, audio);
    reloaded := second.value.settings;
  }
}
