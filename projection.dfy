/**
 * What the change effect does to the root element's class list, as a
 * function of the list before and the settings record, one step per
 * `classList` call in the order the effect makes them.
 */
module Projection {
  import opened Browser
  import opened AccessibilitySettings

  const HighContrastClass := "high-contrast"
  const ReduceMotionClass := "reduce-motion"
  const EnhancedKeyboardClass := "enhanced-keyboard"

  /** The class `theme-${colorTheme}`. */
  function ThemeClass(t: ColorTheme): string {
    "theme-" + ThemeName(t)
  }

  /** The three theme classes the effect removes before adding one. */
  const ThemeClasses: set<string> := {"theme-default", "theme-monochrome", "theme-high-contrast"}

  /** The six classes the effect manages; it never touches any other class. */
  const ManagedClasses: set<string> :=
    {HighContrastClass, ReduceMotionClass, EnhancedKeyboardClass} + ThemeClasses

  /** `if (on) add(token) else remove(token)`. */
  function Toggled(classes: seq<string>, token: string, on: bool): seq<string> {
    if on then Added(classes, token) else Without(classes, {token})
  }

  /** The class list after the effect has run for `s` on `classes`. */
  function Projected(classes: seq<string>, s: Settings): (r: seq<string>)
    ensures ThemeClass(s.colorTheme) in r
  {
    ThemeClassIsManaged(s.colorTheme);
    var afterContrast := Toggled(classes, HighContrastClass, s.highContrast);
    var afterMotion := Toggled(afterContrast, ReduceMotionClass, s.reduceMotion);
    var afterTheme := Added(Without(afterMotion, ThemeClasses), ThemeClass(s.colorTheme));
    Toggled(afterTheme, EnhancedKeyboardClass, s.keyboardNavigation)
  }

  /** Whether managed class `x` belongs on the root element for `s`. */
  predicate Marks(s: Settings, x: string) {
    (x == HighContrastClass && s.highContrast)
    || (x == ReduceMotionClass && s.reduceMotion)
    || (x == EnhancedKeyboardClass && s.keyboardNavigation)
    || x == ThemeClass(s.colorTheme)
  }

  lemma ThemeClassIsManaged(t: ColorTheme)
    ensures ThemeClass(t) in ThemeClasses
    ensures ThemeClass(t) != HighContrastClass && ThemeClass(t) != ReduceMotionClass
    ensures ThemeClass(t) != EnhancedKeyboardClass
    ensures forall u: ColorTheme :: ThemeClass(u) == ThemeClass(t) ==> u == t
  {
    match t {
      case Default => assert ThemeClass(t) == "theme-default";
      case Monochrome => assert ThemeClass(t) == "theme-monochrome";
      case HighContrast => assert ThemeClass(t) == "theme-high-contrast";
    }
    forall u: ColorTheme | ThemeClass(u) == ThemeClass(t) ensures u == t {
      assert ThemeClass(u)[6] == ThemeName(u)[0];
      assert ThemeClass(t)[6] == ThemeName(t)[0];
    }
  }

  /**
   * Membership after the effect: a managed class is present exactly when
   * `s` calls for it, whatever was there before; any other class is
   * present exactly when it was before.
   */
  lemma ProjectedMembers(classes: seq<string>, s: Settings)
    ensures forall x :: x in Projected(classes, s) <==>
      if x in ManagedClasses then Marks(s, x) else x in classes
  {
    forall x ensures x in Projected(classes, s) <==>
      if x in ManagedClasses then Marks(s, x) else x in classes
    {
      ProjectedAt(classes, s, x);
    }
  }

  lemma ProjectedAt(classes: seq<string>, s: Settings, x: string)
    ensures x in Projected(classes, s) <==>
      if x in ManagedClasses then Marks(s, x) else x in classes
  {
    var afterContrast := Toggled(classes, HighContrastClass, s.highContrast);
    var afterMotion := Toggled(afterContrast, ReduceMotionClass, s.reduceMotion);
    var cleared := Without(afterMotion, ThemeClasses);
    var afterTheme := Added(cleared, ThemeClass(s.colorTheme));
    ThemeClassIsManaged(s.colorTheme);
    ToggledAt(classes, HighContrastClass, s.highContrast, x);
    ToggledAt(afterContrast, ReduceMotionClass, s.reduceMotion, x);
    assert x in cleared <==> x in afterMotion && x !in ThemeClasses;
    assert x in afterTheme <==> x in cleared || x == ThemeClass(s.colorTheme);
    ToggledAt(afterTheme, EnhancedKeyboardClass, s.keyboardNavigation, x);
    FlagClassesDistinct();
    if x == HighContrastClass {
    } else if x == ReduceMotionClass {
    } else if x == EnhancedKeyboardClass {
    } else if x in ThemeClasses {
    } else {
      assert x !in ManagedClasses;
    }
  }

  /** The six managed names are six different names. */
  lemma FlagClassesDistinct()
    ensures HighContrastClass != ReduceMotionClass && HighContrastClass != EnhancedKeyboardClass
    ensures ReduceMotionClass != EnhancedKeyboardClass
    ensures HighContrastClass !in ThemeClasses && ReduceMotionClass !in ThemeClasses
    ensures EnhancedKeyboardClass !in ThemeClasses
  {
    assert HighContrastClass[0] == 'h' && ReduceMotionClass[0] == 'r' && EnhancedKeyboardClass[0] == 'e';
    assert forall c :: c in ThemeClasses ==> c[0] == 't';
  }


  /** Membership after one toggle. */
  lemma ToggledAt(classes: seq<string>, token: string, on: bool, x: string)
    ensures x in Toggled(classes, token, on) <==> if x == token then on else x in classes
  {
  }

  /** The three flag classes follow their fields. */
  lemma ProjectedFlags(classes: seq<string>, s: Settings)
    ensures HighContrastClass in Projected(classes, s) <==> s.highContrast
    ensures ReduceMotionClass in Projected(classes, s) <==> s.reduceMotion
    ensures EnhancedKeyboardClass in Projected(classes, s) <==> s.keyboardNavigation
  {
    ProjectedMembers(classes, s);
    ThemeClassIsManaged(s.colorTheme);
  }

  /** Exactly one theme class remains, namely that of `s.colorTheme`. */
  lemma ProjectedTheme(classes: seq<string>, s: Settings)
    ensures forall t: ColorTheme :: ThemeClass(t) in Projected(classes, s) <==> t == s.colorTheme
    ensures forall x :: x in ThemeClasses && x in Projected(classes, s) ==> x == ThemeClass(s.colorTheme)
  {
    ProjectedMembers(classes, s);
    ThemeClassIsManaged(s.colorTheme);
    forall t: ColorTheme ensures ThemeClass(t) in Projected(classes, s) <==> t == s.colorTheme {
      ThemeClassIsManaged(t);
    }
  }

  /** Toggling a managed class leaves the unmanaged classes and their order alone. */
  lemma ToggledUnmanaged(classes: seq<string>, token: string, on: bool)
    requires token in ManagedClasses
    ensures Without(Toggled(classes, token, on), ManagedClasses) == Without(classes, ManagedClasses)
  {
    if on {
      WithoutAdded(classes, token, ManagedClasses);
    } else {
      WithoutWithout(classes, {token}, ManagedClasses);
      assert {token} + ManagedClasses == ManagedClasses;
    }
  }

  /** The classes outside the six managed ones, in their order, are the same before and after. */
  lemma ProjectedUnmanaged(classes: seq<string>, s: Settings)
    ensures Without(Projected(classes, s), ManagedClasses) == Without(classes, ManagedClasses)
  {
    var afterContrast := Toggled(classes, HighContrastClass, s.highContrast);
    var afterMotion := Toggled(afterContrast, ReduceMotionClass, s.reduceMotion);
    var cleared := Without(afterMotion, ThemeClasses);
    var afterTheme := Added(cleared, ThemeClass(s.colorTheme));
    ToggledUnmanaged(classes, HighContrastClass, s.highContrast);
    ToggledUnmanaged(afterContrast, ReduceMotionClass, s.reduceMotion);
    ThemeClassIsManaged(s.colorTheme);
    WithoutAdded(cleared, ThemeClass(s.colorTheme), ManagedClasses);
    WithoutWithout(afterMotion, ThemeClasses, ManagedClasses);
    assert ThemeClasses + ManagedClasses == ManagedClasses;
    ToggledUnmanaged(afterTheme, EnhancedKeyboardClass, s.keyboardNavigation);
  }

  /** The effect keeps a class list free of duplicates. */
  lemma ProjectedNoDuplicates(classes: seq<string>, s: Settings)
    requires NoDuplicates(classes)
    ensures NoDuplicates(Projected(classes, s))
  {
    var afterContrast := Toggled(classes, HighContrastClass, s.highContrast);
    var afterMotion := Toggled(afterContrast, ReduceMotionClass, s.reduceMotion);
    var cleared := Without(afterMotion, ThemeClasses);
    var afterTheme := Added(cleared, ThemeClass(s.colorTheme));
    ToggledNoDuplicates(classes, HighContrastClass, s.highContrast);
    ToggledNoDuplicates(afterContrast, ReduceMotionClass, s.reduceMotion);
    WithoutNoDuplicates(afterMotion, ThemeClasses);
    AddedNoDuplicates(cleared, ThemeClass(s.colorTheme));
    ToggledNoDuplicates(afterTheme, EnhancedKeyboardClass, s.keyboardNavigation);
  }

  lemma ToggledNoDuplicates(classes: seq<string>, token: string, on: bool)
    requires NoDuplicates(classes)
    ensures NoDuplicates(Toggled(classes, token, on))
  {
    if on {
      AddedNoDuplicates(classes, token);
    } else {
      WithoutNoDuplicates(classes, {token});
    }
  }

  /** Running the effect a second time with the same record leaves the same set of classes. */
  lemma ProjectedIdempotent(classes: seq<string>, s: Settings)
    ensures forall x :: x in Projected(Projected(classes, s), s) <==> x in Projected(classes, s)
  {
    ProjectedMembers(classes, s);
    ProjectedMembers(Projected(classes, s), s);
  }

  /** The first run on an empty class list, for the defaults. */
  lemma ProjectedDefaultsOnEmpty()
    ensures Projected([], Defaults) == ["theme-default", "enhanced-keyboard"]
  {
    var theme := ThemeClass(Default);
    assert theme == "theme-default";
    assert Toggled([], HighContrastClass, false) == [];
    assert Toggled([], ReduceMotionClass, false) == [];
    assert Without([], ThemeClasses) == [];
    assert Added([], theme) == [theme];
    assert Added([theme], EnhancedKeyboardClass) == [theme, EnhancedKeyboardClass];
  }

  /** A second run for the defaults moves the theme class to the end. */
  lemma ProjectedDefaultsAgain()
    ensures Projected(["theme-default", "enhanced-keyboard"], Defaults) == ["enhanced-keyboard", "theme-default"]
  {
    var theme := ThemeClass(Default);
    assert theme == "theme-default";
    var once := [theme, EnhancedKeyboardClass];
    WithoutAbsent(once, {HighContrastClass});
    WithoutAbsent(once, {ReduceMotionClass});
    assert Toggled(Toggled(once, HighContrastClass, false), ReduceMotionClass, false) == once;
    WithoutConcat([theme], [EnhancedKeyboardClass], ThemeClasses);
    assert once == [theme] + [EnhancedKeyboardClass];
    WithoutAbsent([EnhancedKeyboardClass], ThemeClasses);
    assert Without([theme], ThemeClasses) == [] + Without([], ThemeClasses);
    var cleared := Without(once, ThemeClasses);
    assert cleared == [EnhancedKeyboardClass];
    assert theme != EnhancedKeyboardClass by {
      assert theme[0] != EnhancedKeyboardClass[0];
    }
    assert Added(cleared, theme) == cleared + [theme];
  }

  /**
   * The order of the class list is not idempotent: the theme class is
   * taken out and appended again on every run, so it moves behind a
   * keyboard class that the first run appended after it.
   */
  lemma ProjectedTwiceReorders()
    ensures Projected(Projected([], Defaults), Defaults) != Projected([], Defaults)
  {
    ProjectedDefaultsOnEmpty();
    ProjectedDefaultsAgain();
    assert ["enhanced-keyboard", "theme-default"][0] != ["theme-default", "enhanced-keyboard"][0];
  }
}
