# Portfolio site core, modelled in Dafny

The portfolio site is a single-page React application. Most of it is markup and styling.
Under that sits a small amount of logic, and this project models it:

- **I18n** (`i18n.dfy`): the custom browser-language detection that gives i18next its
  initial language (`de`, `en` or `zh`), the fallback language, and the translation
  function `t` as the components use it. `t` is a catalogue map passed in. A missing key
  comes back as the key itself, or as the default when the call passes one.
- **ThemeContext** (`theme_context.dfy`): the theme provider. The class `ThemeProvider`
  holds the `theme` state cell, the local-storage map (keys `theme` and
  `theme_user_preference`), the class set of the document root, and whether the
  colour-scheme listener is registered. Each method is proved equal to a step function on
  the value `ThemeState`. The lemmas about those step functions state the invariants, the
  override marker's precedence and idempotence.
- **Projects** (`projects.dfy`): building project records from the fixed key list, the
  category filter, and the gallery's state cells (filter, selected project, description
  flag, language subscription).
- **Contact** (`contact.dfy`): the form-field update, the submission status machine
  `'' → sending → success | error → ''`, the disabled submit button, the reset timers and
  the phone/address visibility rule. The network outcome (OK, not OK, thrown) is an input.
- **Skills**, **About** and **Header** (`skills.dfy`, `about.dfy`, `header.dfy`): lookup
  tables with fallbacks (skill level to width and colour, language to résumé, language to
  menu entry), the header's theme flip, and the language menu's open/close rules.

React's state setters are modelled with React's bail-out. Setting a state cell to the
value it already holds causes no re-render, so the effect keyed on it does not run
(`ThemeContext.WithTheme`). An effect that the source runs after a render runs at the end
of the method that changed the state.

### Behaviour of the code worth knowing

- A new submission does not cancel a pending status reset
  (src/components/Contact.jsx:45, 52, 57). A reset armed by one submission can fire during
  a later one. It shows `''` while that request is still in flight and enables the submit
  button again (`Contact.StaleResetReenablesSubmit`).
- A stored theme is adopted without validation (src/contexts/ThemeContext.jsx:8). The
  theme is light or dark only if storage held nothing or held one of those
  (`ThemeContext.InitialThemeIsLightOrDark`).
- Detection has no persisted input (src/i18n.js:25, 55). It reads `navigator.language`,
  or `navigator.userLanguage` when the former is empty or missing, and its result is passed
  to i18next as `lng`.
- `changeLanguage` passes any code to i18next (src/i18n.js:59-61). Only the header menu
  limits the choice to the three codes.
- The theme provider's own re-check for a missing stored theme, made when the listener is
  registered (src/contexts/ThemeContext.jsx:41-43), can never fire. The theme effect runs
  first and stores the non-empty initial theme (`ThemeContext.MountedState`, and the
  `assert false` in the provider's constructor).

## Model

| member | source | states |
|---|---|---|
| I18n.FirstSegment | src/i18n.js:26 | the result is the prefix of the tag before its first `-`, or the whole tag when it has no `-` |
| I18n.DetectBrowserLanguage | src/i18n.js:23-36 | German exactly for subtag `de` or one of the seven European subtags, Chinese exactly for `zh`, English for everything else |
| I18n.DetectFromNavigator | src/i18n.js:25 | a non-empty `navigator.language` decides; otherwise `userLanguage` decides, and a missing one is the error case |
| I18n.DetectIsSupported | src/i18n.js:23-36 | every tag detects as a code that has a catalogue (`de`, `en`, `zh`) |
| I18n.DetectRoundTrip | src/i18n.js:26-31 | each supported code, alone or with any region part, detects as itself |
| I18n.EuropeanFallsBackToGerman | src/i18n.js:34-35 | `fr`, `es`, `it`, `nl`, `pt`, `ru`, `pl` with any region give German |
| I18n.JapaneseFallsBackToEnglish | src/i18n.js:35 | `ja-JP`, outside the table, gives English |
| I18n.UpperCaseTag | src/i18n.js:26 | `DE-AT` has primary subtag `de` and gives German |
| I18n.RegionIsIgnored | src/i18n.js:26 | two tags with the same primary subtag and different region parts give the same language |
| I18n.DetectIgnoresCase | src/i18n.js:26 | lower-casing the tag first does not change the detected language |
| I18n.InitialLanguage | src/i18n.js:55 | `lng` is always one of `de`, `en`, `zh`; a tag whose primary subtag is one of them gives that code |
| I18n.Translate | src/components/Projects.jsx:28-32 | a key the catalogue has gives its entry; any result other than the key itself is the catalogue's entry |
| I18n.TranslateOr | src/components/Projects.jsx:33-35 | the catalogue's entry when the key is present, the given default otherwise |
| I18n.TranslateDefaultsToKey | src/components/Projects.jsx:28-35 | `t(key)` behaves as `t(key, key)` |
| I18n.InitialFollowsNavigator | src/i18n.js:55 | with a non-empty `navigator.language`, i18next's `lng` is the language detected from it |
| ThemeContext.InitialTheme | src/contexts/ThemeContext.jsx:6-11 | a non-empty stored theme is adopted verbatim; otherwise dark exactly when the OS prefers dark; never empty |
| ThemeContext.Toggled | src/contexts/ThemeContext.jsx:20-22 | the result is dark exactly when the theme was light, and always light or dark |
| ThemeContext.MountedState | src/contexts/ThemeContext.jsx:6-18 | after mounting the theme is the initial theme, is persisted, sits in the root classes without its opposite, and the listener is registered |
| ThemeContext.InitialThemeIsLightOrDark | src/contexts/ThemeContext.jsx:8 | the initial theme is light or dark exactly when storage had no theme or had light or dark |
| ThemeContext.WithThemeKeepsConsistent | src/contexts/ThemeContext.jsx:13-18 | after any theme change, storage holds the theme, the root has its class and not the displaced one |
| ThemeContext.ThemeSourcesAreTokens | src/contexts/ThemeContext.jsx:8-22 | the OS-derived and toggled themes are valid class tokens; the mounted theme is one exactly when storage held no theme or a valid token |
| ThemeContext.UserPreferenceSetsThemeAndMarker | src/contexts/ThemeContext.jsx:56-59 | the user's choice becomes the theme verbatim and the marker is stored as `'true'` |
| ThemeContext.UserPreferenceIdempotent | src/contexts/ThemeContext.jsx:56-59 | choosing the same theme twice gives the same state as choosing it once |
| ThemeContext.SystemChangeFollowsOs | src/contexts/ThemeContext.jsx:27-32 | with no marker, an OS change sets and persists dark or light from the query and leaves the marker unset |
| ThemeContext.SystemChangeIgnoredAfterChoice | src/contexts/ThemeContext.jsx:29 | with the marker set, an OS change leaves the whole state unchanged |
| ThemeContext.NoListenerAfterUnmount | src/contexts/ThemeContext.jsx:46-52 | after unmounting, any number of OS changes leave the state as it is |
| ThemeContext.MarkerIsSticky | src/contexts/ThemeContext.jsx:58 | once the marker is set, no sequence of events clears it |
| ThemeContext.RunKeepsConsistent | src/contexts/ThemeContext.jsx:13-59 | every sequence of user choices, OS changes, toggles and unmounts keeps storage and root classes in step with the theme |
| ThemeContext.RunKeepsValidToken | src/contexts/ThemeContext.jsx:13-59 | from a valid theme, with every user choice a valid token, every run keeps the theme a valid class token, so the effect never throws |
| ThemeContext.OsChangesIgnoredAfterChoice | src/contexts/ThemeContext.jsx:27-32 | once the marker is set, any number of OS changes leave the state unchanged |
| ThemeContext.UserChoiceOverridesOs | src/contexts/ThemeContext.jsx:56-59 | after a user choice, the theme stays that choice through any later OS changes |
| ThemeContext.InternalToggleFlips | src/contexts/ThemeContext.jsx:20-22 | the internal toggle turns light into dark and anything else into light, persists it and keeps the classes in step |
| ThemeContext.ThemeProvider.constructor | src/contexts/ThemeContext.jsx:6-44 | mounting yields exactly the mounted state |
| ThemeContext.ThemeProvider.ApplyTheme | src/contexts/ThemeContext.jsx:13-18 | the displaced class is removed, the theme added, the theme persisted |
| ThemeContext.ThemeProvider.SetTheme | src/contexts/ThemeContext.jsx:6 | a new value is applied through the effect; the same value changes nothing |
| ThemeContext.ThemeProvider.ToggleTheme | src/contexts/ThemeContext.jsx:20-22 | the state becomes the internal toggle of the old state |
| ThemeContext.ThemeProvider.SetUserThemePreference | src/contexts/ThemeContext.jsx:56-59 | the state becomes the user-preference step of the old state |
| ThemeContext.ThemeProvider.NotifySystemChange | src/contexts/ThemeContext.jsx:27-32 | the state becomes the OS-change step of the old state |
| ThemeContext.ThemeProvider.Unmount | src/contexts/ThemeContext.jsx:46-52 | only the listener registration is dropped |
| Projects.BaseName | src/components/Projects.jsx:26 | same length, no underscore left, every underscore turned into `-`, every other character kept |
| Projects.LoadProject | src/components/Projects.jsx:26-39 | `id` is the key; each text field is the translation of `<key>_<field>`, with `''` as default for challenge, solution and tools; the image and video paths are built from the base name |
| Projects.LoadProjects | src/components/Projects.jsx:25-40 | one record per key, in key order |
| Projects.FilterProjects | src/components/Projects.jsx:52-55 | `'all'` gives the list unchanged; otherwise exactly the records of that category, each as often as in the list, in their order (a subsequence) |
| Projects.FilterIdempotent | src/components/Projects.jsx:52-55 | filtering the filtered list again changes nothing |
| Projects.BaseNamesDiffer | src/components/Projects.jsx:26 | keys of different length, or differing in a non-underscore character, keep distinct base names |
| Projects.AssetPathsDiffer | src/components/Projects.jsx:37-38 | distinct base names give distinct image and video paths |
| Projects.ProjectBaseNamesDistinct | src/components/Projects.jsx:15-21 | the five keys have pairwise distinct base names |
| Projects.ProjectAssetsDistinct | src/components/Projects.jsx:15-40 | the five records have distinct ids and share no image and no video |
| Projects.ProjectsSection.constructor | src/components/Projects.jsx:10-13 | mounting loads the records, sets the filter to `'all'`, no selection, description collapsed, subscribed to language changes; every record is visible |
| Projects.ProjectsSection.SetFilter | src/components/Projects.jsx:74 | the filter becomes the button's value; the visible list is exactly the filtered records, the whole list for `'all'` |
| Projects.ProjectsSection.OpenModal | src/components/Projects.jsx:57-61 | the project is selected and the description collapsed |
| Projects.ProjectsSection.CloseModal | src/components/Projects.jsx:63-66 | the selection is cleared |
| Projects.ProjectsSection.ToggleDescription | src/components/Projects.jsx:68-70 | the description flag is negated |
| Projects.ProjectsSection.LanguageChanged | src/components/Projects.jsx:44-46 | while subscribed, the whole list is rebuilt from the new catalogue |
| Projects.ProjectsSection.Unmount | src/components/Projects.jsx:47-49 | the language subscription is dropped |
| Contact.ShowDetailRow | src/components/Contact.jsx:132 | a row is shown exactly when its key is set, translated, and the translation differs from the key |
| Contact.ChangeTouchesOneField | src/components/Contact.jsx:24-26 | a change sets the named field, keeps every other field and the status |
| Contact.PressWhileSendingIsIgnored | src/components/Contact.jsx:233 | pressing the disabled button while sending changes nothing |
| Contact.PressSubmitsWhenEnabled | src/components/Contact.jsx:30 | an enabled press sets `'sending'` before any response and issues one request with the form unchanged |
| Contact.ResponseOutcomes | src/components/Contact.jsx:42-58 | OK gives success and empty fields; not-OK or thrown gives error with the form kept; each arms one reset |
| Contact.StepKeepsWellFormed | src/components/Contact.jsx:24-59 | every event keeps "sending implies a request in flight" and "success or error implies an armed reset" |
| Contact.RunKeepsWellFormed | src/components/Contact.jsx:24-59 | every possible run of events keeps the state well formed |
| Contact.SendingAwaitsResponse | src/components/Contact.jsx:30-33 | while sending shows, a response can arrive |
| Contact.SubmissionCycle | src/components/Contact.jsx:28-59 | submit, response and the reset return the status to `''` |
| Contact.StaleResetReenablesSubmit | src/components/Contact.jsx:45 | a reset armed by an earlier submission clears a later `'sending'` and lets a second request go out |
| Contact.DetailRowsNeedTranslation | src/components/Contact.jsx:132-144 | the phone and address rows show exactly when their keys translate to something other than themselves; without translations both are hidden |
| Contact.ContactForm.constructor | src/components/Contact.jsx:21-22 | empty fields, status `''` |
| Contact.ContactForm.HandleChange | src/components/Contact.jsx:24-26 | the state becomes the change step of the old state |
| Contact.ContactForm.HandleSubmit | src/components/Contact.jsx:30-39 | the status becomes `'sending'` and the request carries the form data |
| Contact.ContactForm.PressSubmit | src/components/Contact.jsx:233 | a request goes out exactly when the status was not `'sending'` |
| Contact.ContactForm.ReceiveResponse | src/components/Contact.jsx:42-58 | the state becomes the response step of the old state |
| Contact.ContactForm.ResetTimerFires | src/components/Contact.jsx:45 | the status becomes `''` and one armed reset is used up |
| Skills.LevelPercent | src/components/Skills.jsx:104-114 | between 40 and 100; 50 exactly for a level missing from the colour table |
| Skills.SkillLevelPercentage | src/components/Skills.jsx:104-114 | the six levels give `95%`, `80%`, `60%`, `40%`, `90%`, `100%`; a level outside the table gives `50%` |
| Skills.LevelColor | src/components/Skills.jsx:54-61 | the table entry for a known level, the grey default otherwise, always one of the table's classes |
| Skills.EveryLevelIsKnown | src/components/Skills.jsx:6-61 | every level used in the skill table has a colour entry and a width other than the default |
| Skills.UnknownLooksLikeBasic | src/components/Skills.jsx:156 | an unknown level gets the same grey as `basic` but width 50 instead of 40 |
| About.CurrentResumeFile | src/components/About.jsx:9-16 | the file of the language when it has one, the German file otherwise, never undefined |
| About.ResumePerLanguage | src/components/About.jsx:9-13 | each supported language selects its own file, and the three files are pairwise distinct |
| About.OtherCodesGetGerman | src/components/About.jsx:16 | any code other than the three gets the German file |
| Header.FindByCode | src/components/Header.jsx:51 | a found entry is the first entry of the list with that code; nothing is found exactly when no entry has the code |
| Header.CurrentLang | src/components/Header.jsx:51 | the entry of the active code when one exists, else the first entry, German |
| Header.MenuAfterMousedown | src/components/Header.jsx:40-45 | a closed menu stays closed; an open one closes exactly when the target is outside the menu |
| Header.MenuCodesAreSupported | src/components/Header.jsx:14-18 | the menu lists `de`, `en`, `zh` in that order, each once |
| Header.CurrentLangOfSupported | src/components/Header.jsx:51 | each supported code shows its own entry |
| Header.NextTheme | src/components/Header.jsx:30 | the target theme is dark exactly when the theme is light, and always light or dark |
| Header.NextThemeIsToggle | src/components/Header.jsx:29-32 | the header's target theme equals the provider's internal toggle for every theme |
| Header.ThemeButtonSetsMarker | src/components/Header.jsx:29-32 | the theme button flips light and dark through the provider and sets the override marker |
| Header.HeaderState.constructor | src/components/Header.jsx:10-11 | menu closed, not scrolled |
| Header.HeaderState.ToggleLangMenu | src/components/Header.jsx:82 | the menu flag is negated |
| Header.HeaderState.HandleLanguageChange | src/components/Header.jsx:34-37 | the requested language is the entry's code and the menu is closed |
| Header.HeaderState.HandleClickOutside | src/components/Header.jsx:40-45 | the menu follows the mousedown rule |
| Header.HeaderState.HandleScroll | src/components/Header.jsx:22-24 | scrolled exactly when the offset exceeds 50 |
| Header.HeaderState.HandleThemeToggle | src/components/Header.jsx:29-32 | the provider takes the user-preference step with the opposite theme |

## Left out

- All JSX markup, Tailwind classes, framer-motion animation and the image and video error fallbacks are left out. They are presentation.
- `tailwind.config.js`, `src/App.jsx`, `src/components/Footer.jsx` and `src/components/Education.jsx` are not part of this model. They hold composition, styling or static data.
- The internals of i18next and its language detector are left out (src/i18n.js:38-56, 59-61). This covers loading the catalogues, the fallback to `de` for missing keys, the `i18nextLng` storage key and interpolation. `t` is a catalogue map passed in.
- I18n.DetectBrowserLanguage: lower-casing covers ASCII letters only. JavaScript's `toLowerCase` is full Unicode, but no non-ASCII character lower-cases into one of the tested two-letter codes, so the detected language is the same.
- The `fetch` to the form relay is network I/O and is left out. Its outcome is an input of `ReceiveResponse`, and the request body is the output of `HandleSubmit`. The logging of errors to the console is left out too.
- Timer timing, the 5000 ms delay of the status reset included, is left out. A pending reset is a count of armed timers, and `ResetTimerFires` is the event of one of them firing.
- Browser constraint validation (`required`, `type="email"`), which can stop a submission before `handleSubmit`, is left out.
- Registration of the scroll and mousedown listeners, the Safari `addListener` fallback and `document.body.style.overflow` are left out. They are browser API calls with nothing to state.
- `matchMedia` is assumed present and is reduced to the boolean result of its query. The initial value checks for it (src/contexts/ThemeContext.jsx:10), but the listener effect calls it without a check (src/contexts/ThemeContext.jsx:26). A browser without it therefore throws on mount, and that failure is not modelled.
- ThemeContext.Applied: `classList.add` and `classList.remove` throw for an empty theme or one containing whitespace, before the theme is stored. The model assumes the theme is a valid class token (`ThemeContext.ValidToken`) and does not model the throw. `ThemeContext.RunKeepsValidToken` and `ThemeContext.ThemeSourcesAreTokens` state when that holds: always for the provider's own values, not for a stored theme or a consumer's choice such as `"dark mode"` or `""`.
- ThemeContext.WithTheme, ThemeContext.Mounted, ThemeContext.MountedState, ThemeContext.WithThemeKeepsConsistent, ThemeContext.UserPreferenceSetsThemeAndMarker, ThemeContext.RunKeepsConsistent: exact only while the theme is a valid class token, as for `Applied`; with any other theme the source throws instead.
- Storage failures are not modelled, because the code has no handling for them.
- Lookups on JavaScript objects by keys of the object prototype (such as `constructor`) are left out. The table lookups treat every other key as missing.
- Header.HeaderState.HandleScroll: `window.scrollY` is a floating-point offset; the model takes an integer.
