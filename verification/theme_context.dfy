/**
 * The theme provider (src/contexts/ThemeContext.jsx): a `theme` state cell, the `theme` and
 * `theme_user_preference` keys of local storage, and the class list of the document root.
 * The user setter and the operating system's colour-scheme listener both drive the theme;
 * the listener gives way once the user has chosen.
 */
module ThemeContext {

  /** Storage key holding the current theme. */
  const ThemeKey := "theme"
  /** Storage key marking that the user has chosen a theme. */
  const PreferenceKey := "theme_user_preference"

  /** `localStorage.getItem(key)` is truthy: the key is present and not the empty string. */
  predicate Truthy(storage: map<string, string>, key: string)
  {
    key in storage && storage[key] != ""
  }

  /** The theme a `prefers-color-scheme: dark` query result stands for. */
  function SystemTheme(matches: bool): string
  {
    if matches then "dark" else "light"
  }

  /**
   * The lazy initial value of the `theme` cell: a truthy stored theme is adopted verbatim,
   * otherwise the operating system's preference decides. `prefersDark` is the result of the
   * `matchMedia` query; a browser without `matchMedia` gets light here.
   */
  function InitialTheme(storage: map<string, string>, prefersDark: bool): (t: string)
    ensures Truthy(storage, ThemeKey) ==> t == storage[ThemeKey]
    ensures !Truthy(storage, ThemeKey) ==> (t == "dark" <==> prefersDark) && t in {"light", "dark"}
    ensures t != ""
  {
    if Truthy(storage, ThemeKey) then storage[ThemeKey] else SystemTheme(prefersDark)
  }

  /** The class the theme effect removes from the root before adding the theme itself. */
  function Displaced(theme: string): string
  {
    if theme == "dark" then "light" else "dark"
  }

  /** The provider's own (unexported) `toggleTheme`: light becomes dark, anything else light. */
  function Toggled(theme: string): (r: string)
    ensures r == "dark" <==> theme == "light"
    ensures r in {"light", "dark"}
  {
    if theme == "light" then "dark" else "light"
  }

  /** The characters a DOM class token may not contain: ASCII whitespace. */
  const AsciiWhitespace: set<char> := {' ', '\t', '\n', 12 as char, '\r'}

  /**
   * A theme that `classList.remove` and `classList.add` accept: non-empty and free of ASCII
   * whitespace. With any other theme the effect throws before it stores the theme, which
   * this model does not capture: the step functions below are exact only for valid tokens.
   */
  predicate ValidToken(t: string)
  {
    t != "" && forall i :: 0 <= i < |t| ==> t[i] !in AsciiWhitespace
  }

  /** Everything the provider owns, as one value. */
  datatype ThemeState = ThemeState(
    theme: string,
    storage: map<string, string>,
    rootClasses: set<string>,
    listening: bool)  // whether the colour-scheme listener is registered

  /** The effect keyed on `theme`: remove the displaced class, add the theme, persist it. */
  function Applied(s: ThemeState): ThemeState
  {
    s.(rootClasses := s.rootClasses - {Displaced(s.theme)} + {s.theme},
       storage := s.storage[ThemeKey := s.theme])
  }

  /**
   * `setTheme(t)` followed by the re-render: React skips the re-render, and with it the
   * effect, when the new value equals the current one.
   */
  function WithTheme(s: ThemeState, t: string): ThemeState
  {
    if t == s.theme then s else Applied(s.(theme := t))
  }

  /** The provider after mounting: the initial value, the theme effect, then the listener effect. */
  function Mounted(storage: map<string, string>, rootClasses: set<string>, prefersDark: bool): ThemeState
  {
    var s := Applied(ThemeState(InitialTheme(storage, prefersDark), storage, rootClasses, false));
    var s' := s.(listening := true);
    if !Truthy(s'.storage, ThemeKey) then WithTheme(s', SystemTheme(prefersDark)) else s'
  }

  /** `setUserThemePreference(t)`, exported to consumers under the name `toggleTheme`. */
  function UserPreference(s: ThemeState, t: string): ThemeState
  {
    WithTheme(s.(storage := s.storage[PreferenceKey := "true"]), t)
  }

  /** A colour-scheme change event; `handleChange` sees it only while it is registered. */
  function SystemChange(s: ThemeState, matches: bool): ThemeState
  {
    if s.listening && !Truthy(s.storage, PreferenceKey) then WithTheme(s, SystemTheme(matches)) else s
  }

  /** The provider's own `toggleTheme`. */
  function InternalToggle(s: ThemeState): ThemeState
  {
    WithTheme(s, Toggled(s.theme))
  }

  /** The listener effect's clean-up on unmount. */
  function Unmounted(s: ThemeState): ThemeState
  {
    s.(listening := false)
  }

  /**
   * What the theme effect keeps after every change: storage holds the theme, the root has
   * the theme's class and not the displaced one.
   */
  ghost predicate Consistent(s: ThemeState)
  {
    && ThemeKey in s.storage && s.storage[ThemeKey] == s.theme
    && s.theme in s.rootClasses
    && Displaced(s.theme) !in s.rootClasses
  }

  /**
   * Where themes come from: the provider's own values are valid tokens, and the mounted
   * theme is one exactly when storage held no theme or held a valid token.
   */
  lemma ThemeSourcesAreTokens(storage: map<string, string>, rootClasses: set<string>,
                              prefersDark: bool, matches: bool, theme: string)
    ensures ValidToken(SystemTheme(matches)) && ValidToken(Toggled(theme))
    ensures ValidToken(Mounted(storage, rootClasses, prefersDark).theme)
        <==> !Truthy(storage, ThemeKey) || ValidToken(storage[ThemeKey])
  {
    assert "dark"[0] == 'd' && "dark"[1] == 'a' && "dark"[2] == 'r' && "dark"[3] == 'k';
    assert "light"[0] == 'l' && "light"[1] == 'i' && "light"[2] == 'g' && "light"[3] == 'h' && "light"[4] == 't';
  }

  /** An event that reaches the provider. */
  datatype ThemeEvent = UserChoice(theme: string) | OsChange(matches: bool) | Toggle | Unmount

  function Step(s: ThemeState, e: ThemeEvent): ThemeState
  {
    match e
    case UserChoice(t) => UserPreference(s, t)
    case OsChange(m) => SystemChange(s, m)
    case Toggle => InternalToggle(s)
    case Unmount => Unmounted(s)
  }

  function Run(s: ThemeState, events: seq<ThemeEvent>): ThemeState
    decreases |events|
  {
    if events == [] then s else Run(Step(s, events[0]), events[1..])
  }

  /** The colour-scheme events for a sequence of query results. */
  function OsChanges(results: seq<bool>): (r: seq<ThemeEvent>)
    ensures |r| == |results|
    ensures forall i :: 0 <= i < |r| ==> r[i] == OsChange(results[i])
  {
    if results == [] then [] else [OsChange(results[0])] + OsChanges(results[1..])
  }

  // ---------------------------------------------------------------------------------------
  // The provider as the source has it

  class ThemeProvider {
    var theme: string
    var storage: map<string, string>
    var rootClasses: set<string>
    var listening: bool

    function State(): ThemeState
      reads this
    {
      ThemeState(theme, storage, rootClasses, listening)
    }

    /** Mounting the provider over the given storage and root class list. */
    constructor (storage0: map<string, string>, rootClasses0: set<string>, prefersDark: bool)
      ensures State() == Mounted(storage0, rootClasses0, prefersDark)
    {
      theme := InitialTheme(storage0, prefersDark);
      storage := storage0;
      rootClasses := rootClasses0;
      listening := false;
      new;
      ApplyTheme();
      listening := true;
      // The listener effect's check for a missing stored theme cannot fire: the theme
      // effect, which runs first, has just stored the non-empty initial theme.
      if !Truthy(storage, ThemeKey) {
        assert false;
      }
    }

    /** The effect keyed on `theme`. */
    method ApplyTheme()
      modifies this
      ensures State() == Applied(old(State()))
    {
      rootClasses := rootClasses - {Displaced(theme)};
      rootClasses := rootClasses + {theme};
      storage := storage[ThemeKey := theme];
    }

    /** The state setter, with the re-render and effect it triggers. */
    method SetTheme(t: string)
      modifies this
      ensures State() == WithTheme(old(State()), t)
    {
      if t != theme {
        theme := t;
        ApplyTheme();
      }
    }

    method ToggleTheme()
      modifies this
      ensures State() == InternalToggle(old(State()))
    {
      SetTheme(Toggled(theme));
    }

    method SetUserThemePreference(t: string)
      modifies this
      ensures State() == UserPreference(old(State()), t)
    {
      storage := storage[PreferenceKey := "true"];
      SetTheme(t);
    }

    /** The media query reports a change; `matches` is whether it now prefers dark. */
    method NotifySystemChange(matches: bool)
      modifies this
      ensures State() == SystemChange(old(State()), matches)
    {
      if listening && !Truthy(storage, PreferenceKey) {
        SetTheme(SystemTheme(matches));
      }
    }

    method Unmount()
      modifies this
      ensures State() == Unmounted(old(State()))
    {
      listening := false;
    }
  }

  // ---------------------------------------------------------------------------------------
  // Properties

  /**
   * Mounting adopts the initial theme, persists it and sets the root classes; the re-check
   * for a missing stored theme never fires, because the theme effect has just stored one.
   */
  lemma MountedState(storage: map<string, string>, rootClasses: set<string>, prefersDark: bool)
    ensures var s := Mounted(storage, rootClasses, prefersDark);
      && s.theme == InitialTheme(storage, prefersDark)
      && s.storage == storage[ThemeKey := s.theme]
      && s.rootClasses == rootClasses - {Displaced(s.theme)} + {s.theme}
      && s.listening
      && Consistent(s)
  {
  }

  /** The initial theme is light or dark exactly when storage held nothing, or held one of those. */
  lemma InitialThemeIsLightOrDark(storage: map<string, string>, prefersDark: bool)
    ensures InitialTheme(storage, prefersDark) in {"light", "dark"}
        <==> !Truthy(storage, ThemeKey) || storage[ThemeKey] in {"light", "dark"}
  {
  }

  /** Every theme change keeps storage and the root classes in step with the theme. */
  lemma WithThemeKeepsConsistent(s: ThemeState, t: string)
    requires Consistent(s)
    ensures Consistent(WithTheme(s, t))
    ensures WithTheme(s, t).theme == t
    ensures WithTheme(s, t).storage == s.storage[ThemeKey := t]
    ensures WithTheme(s, t).listening == s.listening
  {
  }

  /** The user's choice becomes the theme and sets the override marker. */
  lemma UserPreferenceSetsThemeAndMarker(s: ThemeState, t: string)
    requires Consistent(s)
    ensures var r := UserPreference(s, t);
      && r.theme == t
      && Truthy(r.storage, PreferenceKey)
      && r.storage == s.storage[PreferenceKey := "true"][ThemeKey := t]
      && Consistent(r)
  {
  }

  /** Choosing the same theme twice leaves the same state as choosing it once. */
  lemma UserPreferenceIdempotent(s: ThemeState, t: string)
    ensures UserPreference(UserPreference(s, t), t) == UserPreference(s, t)
  {
  }

  /** Before any user choice, an OS change sets the theme from the query and persists it, without setting the marker. */
  lemma SystemChangeFollowsOs(s: ThemeState, matches: bool)
    requires Consistent(s) && s.listening && !Truthy(s.storage, PreferenceKey)
    ensures var r := SystemChange(s, matches);
      && r.theme == SystemTheme(matches)
      && r.storage[ThemeKey] == SystemTheme(matches)
      && !Truthy(r.storage, PreferenceKey)
      && Consistent(r)
  {
  }

  /** Once the marker is set, an OS change leaves everything as it is. */
  lemma SystemChangeIgnoredAfterChoice(s: ThemeState, matches: bool)
    requires Truthy(s.storage, PreferenceKey)
    ensures SystemChange(s, matches) == s
  {
  }

  /** After unmounting no listener is left: OS changes no longer reach the provider. */
  lemma {:induction false} NoListenerAfterUnmount(s: ThemeState, results: seq<bool>)
    ensures Run(Unmounted(s), OsChanges(results)) == Unmounted(s)
    decreases |results|
  {
    if results != [] {
      assert OsChanges(results)[1..] == OsChanges(results[1..]);
      NoListenerAfterUnmount(s, results[1..]);
    }
  }

  /** Nothing clears the marker: once set, it stays set whatever happens next. */
  lemma {:induction false} MarkerIsSticky(s: ThemeState, events: seq<ThemeEvent>)
    requires Truthy(s.storage, PreferenceKey)
    ensures Truthy(Run(s, events).storage, PreferenceKey)
    decreases |events|
  {
    if events != [] {
      MarkerIsSticky(Step(s, events[0]), events[1..]);
    }
  }

  /** Every sequence of events keeps storage and root classes in step with the theme. */
  lemma {:induction false} RunKeepsConsistent(s: ThemeState, events: seq<ThemeEvent>)
    requires Consistent(s)
    ensures Consistent(Run(s, events))
    decreases |events|
  {
    if events != [] {
      var s' := Step(s, events[0]);
      match events[0] {
        case UserChoice(t) => UserPreferenceSetsThemeAndMarker(s, t);
        case OsChange(m) =>
          if s.listening && !Truthy(s.storage, PreferenceKey) {
            WithThemeKeepsConsistent(s, SystemTheme(m));
          }
        case Toggle => WithThemeKeepsConsistent(s, Toggled(s.theme));
        case Unmount =>
      }
      RunKeepsConsistent(s', events[1..]);
    }
  }

  /**
   * The region where the model is exact: from a valid theme, with every user choice a valid
   * token, every state reached has a valid theme, so the effect never throws.
   */
  lemma {:induction false} RunKeepsValidToken(s: ThemeState, events: seq<ThemeEvent>)
    requires ValidToken(s.theme)
    requires forall i :: 0 <= i < |events| && events[i].UserChoice? ==> ValidToken(events[i].theme)
    ensures ValidToken(Run(s, events).theme)
    decreases |events|
  {
    if events != [] {
      ThemeSourcesAreTokens(map[], {}, false, false, s.theme);
      ThemeSourcesAreTokens(map[], {}, false, true, s.theme);
      var rest := events[1..];
      assert forall i :: 0 <= i < |rest| && rest[i].UserChoice? ==> ValidToken(rest[i].theme) by {
        forall i | 0 <= i < |rest| && rest[i].UserChoice?
          ensures ValidToken(rest[i].theme)
        {
          assert rest[i] == events[i + 1];
        }
      }
      RunKeepsValidToken(Step(s, events[0]), rest);
    }
  }

  /** Marked state is unchanged by any number of OS changes. */
  lemma {:induction false} OsChangesIgnoredAfterChoice(s: ThemeState, results: seq<bool>)
    requires Truthy(s.storage, PreferenceKey)
    ensures Run(s, OsChanges(results)) == s
    decreases |results|
  {
    if results != [] {
      assert OsChanges(results)[1..] == OsChanges(results[1..]);
      OsChangesIgnoredAfterChoice(s, results[1..]);
    }
  }

  /** A user choice survives every later OS change: the user overrides the system for good. */
  lemma UserChoiceOverridesOs(s: ThemeState, t: string, results: seq<bool>)
    ensures Run(s, [UserChoice(t)] + OsChanges(results)).theme == t
  {
    var events := [UserChoice(t)] + OsChanges(results);
    assert events[1..] == OsChanges(results);
    var r := UserPreference(s, t);
    assert Truthy(r.storage, PreferenceKey);
    OsChangesIgnoredAfterChoice(r, results);
  }

  /** The internal toggle turns light into dark and anything else into light. */
  lemma InternalToggleFlips(s: ThemeState)
    requires Consistent(s)
    ensures InternalToggle(s).theme == (if s.theme == "light" then "dark" else "light")
    ensures Consistent(InternalToggle(s))
    ensures InternalToggle(s).storage == s.storage[ThemeKey := InternalToggle(s).theme]
  {
  }
}
