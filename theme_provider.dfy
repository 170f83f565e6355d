/** The theme provider: a light/dark theme initialised from a stored choice or
    the system preference, kept in sync with system-preference changes when
    nothing was stored at mount, toggled by the user, and mirrored as a class
    on the document element. The browser's state is held in fields of the
    object: `storage` is the stored value of the 'theme' key,
    `systemPrefersDark` what the `(prefers-color-scheme: dark)` query
    currently matches, and `classList` the document element's classes. */
module ThemeProvider {

  const Light := "light"
  const Dark := "dark"

  datatype Option = None | Some(value: string)

  /** The stored value read at mount counts as absent when it is missing or
      the empty string (JavaScript's `!stored`). Any other string is used as
      the theme as it is: the source casts it to 'light' | 'dark' without a
      check. */
  predicate NothingStored(stored: Option) {
    stored.None? || stored.value == ""
  }

  /** The theme `toggleTheme` switches to. */
  function Flipped(theme: string): (r: string)
    ensures r == Light || r == Dark
    ensures r != theme
  {
    if theme == Light then Dark else Light
  }

  /** Toggling twice restores a 'light' or 'dark' theme. */
  lemma ToggleTwiceRestores(theme: string)
    requires theme == Light || theme == Dark
    ensures Flipped(Flipped(theme)) == theme
  {
  }

  /** The theme the system preference stands for. */
  function SystemTheme(prefersDark: bool): (r: string)
    ensures r == Dark <==> prefersDark
    ensures r == Light <==> !prefersDark
  {
    if prefersDark then Dark else Light
  }

  /** The document's class list shows `theme`: it holds `theme`, and holds
      'light' or 'dark' only when that is the theme. */
  ghost predicate ShowsTheme(classes: set<string>, theme: string) {
    && theme in classes
    && (Light in classes <==> theme == Light)
    && (Dark in classes <==> theme == Dark)
  }

  class ThemeProvider {
    var theme: string
    var storage: Option
    var systemPrefersDark: bool
    var classList: set<string>
    /** Whether the mount effect has run. */
    var mounted: bool
    /** The value of `stored` that the system-change handler captured at
        mount. */
    var storedAtMount: Option
    /** Whether the system-change handler is registered. */
    var listening: bool

    /** Before mount nothing is registered; after mount the class list shows
        the theme and the handler is registered exactly when nothing was
        stored at mount, until unmount removes it. */
    ghost predicate Valid()
      reads this
    {
      && (mounted ==> ShowsTheme(classList, theme))
      && (listening ==> mounted && NothingStored(storedAtMount))
    }

    /** The provider before its mount effect: the theme is 'light'; storage
        and the document classes are whatever the browser holds. */
    constructor (initialStorage: Option, prefersDark: bool, documentClasses: set<string>)
      ensures Valid()
      ensures theme == Light && !mounted && !listening
      ensures storage == initialStorage && systemPrefersDark == prefersDark
      ensures classList == documentClasses
    {
      theme := Light;
      storage := initialStorage;
      systemPrefersDark := prefersDark;
      classList := documentClasses;
      mounted := false;
      storedAtMount := None;
      listening := false;
    }

    /** `applyThemeClass`: remove 'light' and 'dark', then add `t`; every
        other class is untouched. */
    method ApplyThemeClass(t: string)
      modifies this`classList
      ensures t in classList
      ensures forall c :: c != t ==> (c in classList <==> c in old(classList) && c != Light && c != Dark)
    {
      classList := classList - {Light, Dark};
      classList := classList + {t};
    }

    /** The mount effect. A stored theme wins; otherwise the system
        preference decides and the change handler is registered. */
    method Mount()
      requires Valid()
      requires !mounted
      modifies this
      ensures Valid()
      ensures mounted && storedAtMount == storage == old(storage)
      ensures systemPrefersDark == old(systemPrefersDark)
      ensures NothingStored(storage) ==> theme == SystemTheme(systemPrefersDark) && listening
      ensures !NothingStored(storage) ==> theme == storage.value && !listening
      ensures ShowsTheme(classList, theme)
      ensures forall c :: c != Light && c != Dark && c != theme ==> (c in classList <==> c in old(classList))
    {
      var stored := storage;
      storedAtMount := stored;
      if NothingStored(stored) {
        listening := true;
        var systemPref := SystemTheme(systemPrefersDark);
        theme := systemPref;
        ApplyThemeClass(systemPref);
      } else {
        theme := stored.value;
        ApplyThemeClass(stored.value);
      }
      mounted := true;
    }

    /** The system preference changes to `matches`: the query fires 'change'
        only when what it matches flips. The event reaches
        `handleSystemChange` only while it is registered, and the handler
        re-checks the value captured at mount, not the current storage. */
    method SystemChange(matches: bool)
      requires Valid()
      requires matches != systemPrefersDark
      modifies this
      ensures Valid()
      ensures listening && NothingStored(storedAtMount) ==>
        theme == SystemTheme(matches) && ShowsTheme(classList, theme)
      ensures !(listening && NothingStored(storedAtMount)) ==>
        theme == old(theme) && classList == old(classList)
      ensures forall c :: c != Light && c != Dark ==> (c in classList <==> c in old(classList))
      ensures storage == old(storage) && mounted == old(mounted)
      ensures storedAtMount == old(storedAtMount) && listening == old(listening)
      ensures systemPrefersDark == matches
    {
      systemPrefersDark := matches;
      if listening {
        if NothingStored(storedAtMount) {
          var newTheme := SystemTheme(matches);
          theme := newTheme;
          ApplyThemeClass(newTheme);
        }
      }
    }

    /** `toggleTheme`: flip the theme, store it and apply it. */
    method ToggleTheme()
      requires Valid()
      modifies this
      ensures Valid()
      ensures theme == Flipped(old(theme))
      ensures storage == Some(theme)
      ensures ShowsTheme(classList, theme)
      ensures forall c :: c != Light && c != Dark ==> (c in classList <==> c in old(classList))
      ensures listening == old(listening) && storedAtMount == old(storedAtMount)
      ensures mounted == old(mounted) && systemPrefersDark == old(systemPrefersDark)
    {
      var newTheme := Flipped(theme);
      theme := newTheme;
      storage := Some(newTheme);
      ApplyThemeClass(newTheme);
    }

    /** The effect's cleanup removes the system-change handler. */
    method Unmount()
      requires Valid()
      modifies this
      ensures Valid()
      ensures !listening
      ensures theme == old(theme) && storage == old(storage) && classList == old(classList)
      ensures mounted == old(mounted) && storedAtMount == old(storedAtMount)
      ensures systemPrefersDark == old(systemPrefersDark)
    {
      listening := false;
    }
  }

  /** The handler keeps the value captured at mount: with nothing stored at
      mount, a toggle writes 'dark' to storage, yet the system's later
      changes, to dark and back to light, still switch the theme, which ends
      'light' while storage keeps 'dark'. */
  method SystemChangeAfterToggleScenario() returns (theme: string, stored: Option)
    ensures theme == Light && stored == Some(Dark)
  {
    var provider := new ThemeProvider(None, false, {});
    provider.Mount();
    provider.ToggleTheme();
    provider.SystemChange(true);
    provider.SystemChange(false);
    theme, stored := provider.theme, provider.storage;
  }

  /** A stored value other than 'light' or 'dark' becomes the theme at
      mount; toggling twice then gives 'dark', not the stored value. */
  method UncheckedStoredValueScenario() returns (atMount: string, afterTwoToggles: string)
    ensures atMount == "blue" && afterTwoToggles == Dark
  {
    var provider := new ThemeProvider(Some("blue"), true, {});
    provider.Mount();
    atMount := provider.theme;
    provider.ToggleTheme();
    provider.ToggleTheme();
    afterTwoToggles := provider.theme;
  }
}
