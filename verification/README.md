# Portfolio site scripts: a Dafny model

This project models the client-side logic of a static personal portfolio
site. There are two scripts:

- `assets/js/main.js` progressively enhances the page. It runs a dark/light
  theme toggle, a mobile navigation menu, reveal-on-scroll animations, a
  "typing" hero headline and a `debounce` helper.
- `script.js` renders a parsed JSON data document into the page: the title,
  CV sections, projects, skills and contact links. It also has its own theme
  toggle.

The browser is replaced by plain state:

- the root element's `dark` class, the menu's `hidden` class and element
  class lists are fields;
- `localStorage` is a `map<string, string>`;
- `textContent` is a string;
- a list mount point is the sequence of children appended to it;
- timers are an explicit integer clock with one pending callback and its due
  time.

Code that updates state in place (the theme toggle, the menu, the observer,
the typewriter closure, the debounce closure, the page's lists) is a class.
Each class method is proved against a specification function. The
properties are proved as lemmas about those functions.

Modules, one per concern:

- `Theme`: the initial-theme rules of both scripts and the shared toggle.
- `MobileMenu`: click dispatch to the menu listeners.
- `Reveal`: the intersection observer callback and its setup.
- `Typing`: the `typeWriter` state machine and its timers.
- `Debounce`: `debounce(func, wait)` on a logical clock.
- `Content`: the rendering part of `loadContent`.
- `Wrappers`: `Option`.

Behaviour of the code that the model keeps, although one might expect otherwise:

- Re-rendering in `script.js` appends children (`appendChild`); it does not
  replace them. `Content.Page.LoadContent` states that each list becomes its
  old children followed by the new blocks, so loading twice duplicates them.
- The menu has no Escape-key handler in `main.js`. Only clicks are modelled.
- `loadContent` does no HTTP status check and does not guard missing keys.
  The model takes a complete parsed document.
- The scroll handler uses `debounce` with 16 ticks, which is a debounce, not
  a rate limit. Its body is empty.

## Model

| member | source | states |
|---|---|---|
| Theme.GetItem | assets/js/main.js:29 | `getItem` yields the stored value exactly when the key is present, and nothing otherwise |
| Theme.Persisted | assets/js/main.js:37 | the stored value is `'dark'` or `'light'`, and it is `'dark'` exactly when the flag is set |
| Theme.InitialDark | assets/js/main.js:31 | a truthy stored value decides alone (dark iff it is `'dark'`); when nothing or `''` is stored, the system preference decides |
| Theme.ScriptInitialDark | script.js:62 | script.js starts dark only for a truthy stored `'dark'`: it is the main.js rule on a system that does not prefer dark |
| Theme.Toggled | assets/js/main.js:35-37 | a toggle flips the flag and stores the value matching the new flag under `theme`; every other storage key keeps its value |
| Theme.ThemeToggle.Initialize | assets/js/main.js:26-33 | after `initializeTheme` the root is dark iff it was served dark or the main.js rule resolves dark; storage is untouched |
| Theme.ThemeToggle.InitThemeToggle | script.js:58-64 | after `initThemeToggle` the root is dark iff it was served dark or `'dark'` is stored |
| Theme.ThemeToggle.Click | script.js:65-68 | a click leaves the state given by `Toggled` (the same handler as main.js:35-37) |
| Theme.InitialDarkRule | assets/js/main.js:29-33 | main.js starts dark exactly when `'dark'` is stored, or nothing (or `''`) is stored and the system prefers dark |
| Theme.StoredValueOverridesSystem | assets/js/main.js:31 | any other non-empty stored value, `'light'` included, gives light even when the system prefers dark |
| Theme.ScriptsDisagree | script.js:61-64 | the two scripts' initial themes differ exactly when nothing usable is stored and the system prefers dark |
| Theme.ToggleTwice | assets/js/main.js:36-37 | two toggles restore the flag, and storage then holds the value matching it |
| Theme.ToggleSurvivesReload | script.js:61-67 | what a toggle stores is what either script resolves on the next load, whatever the system prefers |
| MobileMenu.Menu.Click | assets/js/main.js:51-72 | one click runs the element listener, then the document listener; the result is `AfterClick` |
| MobileMenu.AfterClick | assets/js/main.js:51-72 | the definition is one click: the toggle's listener (flip `hidden`, add `fade-in-up` on show) or a menu link's listener (hide), then the document listener (hide on a click outside both) |
| MobileMenu.ToggleFlips | assets/js/main.js:51-58 | a toggle click flips `hidden`; showing the menu adds `fade-in-up`; two toggle clicks restore `hidden` |
| MobileMenu.ClosingClicks | assets/js/main.js:60-72 | a click on a menu link or outside both elements hides the menu, and repeating it changes nothing |
| MobileMenu.InsideClickIsInert | assets/js/main.js:68-72 | a click inside the menu but not on a link changes nothing |
| MobileMenu.OnlyToggleShows | assets/js/main.js:47-73 | a hidden menu becomes visible only through a toggle click |
| Reveal.Show | assets/js/main.js:95-96 | the shown class list has every visible class and no hidden class; apart from those, it keeps the old classes |
| Reveal.Handle | assets/js/main.js:94-97 | the definition is the callback body for one entry: an intersecting target is shown and unobserved; any other entry changes nothing |
| Reveal.HandleAll | assets/js/main.js:93-98 | the definition is `entries.forEach` over the batch, in order |
| Reveal.Observer.constructor | assets/js/main.js:103-106 | every matched element gets the four setup classes and is observed; the others are untouched |
| Reveal.Observer.Callback | assets/js/main.js:92-99 | the callback's effect on class lists and the observed set is `HandleAll` over the entries in order |
| Reveal.CallbackEffect | assets/js/main.js:93-98 | an element reported intersecting is shown and unobserved; every other element keeps its classes and its observed status |
| Reveal.NeverRehidden | assets/js/main.js:94-97 | once shown, an element's class list is left exactly as it is by any later batch, so it stays shown |
| Reveal.ObservedShrinks | assets/js/main.js:97 | the observed set only shrinks, and only by elements reported intersecting |
| Reveal.RevealedOnce | assets/js/main.js:94-97 | after a batch that reports an element intersecting, the element is unobserved, so no entry of a later batch for observed targets (as the browser delivers them) reports it: it is revealed at most once |
| Typing.Typewriter.constructor | assets/js/main.js:130-166 | the heading keeps its full text; `i = 0`, typing, and the start-up callback is due 1000 later |
| Typing.Typewriter.TypeWriter | assets/js/main.js:142-160 | one run of `typeWriter` keeps `0 <= i <= n` and text = first `i` characters; its effect and timer are those of `Step` |
| Typing.Typewriter.Elapse | assets/js/main.js:152-166 | firing the pending timer moves the clock to its due time, follows `Fire` and keeps the invariant (text is the first `i` characters once started) |
| Typing.Select | assets/js/main.js:143-159 | the definition is the `if`/`else if` chain: the first of the four guards that holds picks the branch |
| Typing.Step | assets/js/main.js:142-160 | the definition is one run of `typeWriter`: the chosen branch's cursor and flag change and the `setTimeout` it asks for |
| Typing.Run | assets/js/main.js:152-166 | the definition runs a fired callback: the start-up callback and an ordinary step call `typeWriter`; the pause closure first sets `isErasing` |
| Typing.Start | assets/js/main.js:139-166 | the definition is the state after start-up: `i = 0`, typing, and the start-up callback due 1000 after the start |
| Typing.ExactlyOneBranch | assets/js/main.js:143-159 | for `0 <= i <= n` (including `n = 0`) exactly one of the four guards holds |
| Typing.BranchEffects | assets/js/main.js:135-158 | typing: `i+1` after 100; erasing: `i-1` after 50; at `i = n`: wait 2000, then erase; at `i = 0` erasing: typing again after 100 |
| Typing.FireKeepsRunning | assets/js/main.js:142-160 | a firing keeps `0 <= i <= n` and always leaves one timer pending, due strictly later than the one that fired |
| Typing.StepsKeepRunning | assets/js/main.js:142-160 | the same holds after any number of firings: the animation never stops |
| Typing.TypingRun | assets/js/main.js:143-146 | `k` typing firings advance the cursor by `k`, 100 apart |
| Typing.ErasingRun | assets/js/main.js:147-150 | `k` erasing firings move the cursor back by `k`, 50 apart |
| Typing.Cycle | assets/js/main.js:142-160 | from an empty heading, `2n + 2` firings return to the same state `150n + 2100` later |
| Typing.BeginIsTypingStep | assets/js/main.js:163-166 | the start-up callback fires exactly like an ordinary typing step |
| Debounce.Debouncer.constructor | assets/js/main.js:219-220 | a new debounced function has no timer armed and has run nothing |
| Debounce.Call | assets/js/main.js:226-227 | a call discards any armed timer and arms one due `wait` later with this call's arguments; the clock and the runs are unchanged |
| Debounce.Elapse | assets/js/main.js:222-225 | `d` ticks advance the clock by `d`; an armed timer due by then runs `func` once with its arguments and empties the slot; otherwise nothing runs and the slot is kept |
| Debounce.Debouncer.ExecutedFunction | assets/js/main.js:221-228 | a call replaces the slot with one timer, due `wait` later, that carries this call's arguments |
| Debounce.Debouncer.Advance | assets/js/main.js:222-225 | time passing runs `func` with the armed arguments if the timer falls due, and clears the slot |
| Debounce.ReplayKeepsInv | assets/js/main.js:219-228 | at most one timer, due within `wait` of the clock; the record of runs only grows |
| Debounce.BurstDefers | assets/js/main.js:221-228 | while every gap between calls is shorter than `wait`, `func` never runs; the armed timer holds the last call's arguments, due `wait` after it |
| Debounce.RunsOnceWithLastArgs | assets/js/main.js:221-228 | a burst followed by `wait` quiet ticks after the last call runs `func` exactly once, with the last call's arguments |
| Debounce.CallSupersedes | assets/js/main.js:226-227 | two calls with no time between them act as the second alone |
| Content.OneBlockPerItem | script.js:31-36 | a `forEach` append yields exactly one block per entry, block `k` built from entry `k` |
| Content.MapSeq | script.js:12 | the definition is the children that a `forEach` with one `appendChild` per entry appends, in entry order |
| Content.DocumentTitle | script.js:5 | the title is the name, then `" - "`, then the title, with nothing else |
| Content.ToUpper | script.js:48 | lower-case ASCII letters map to their capitals; every other character is unchanged |
| Content.Label | script.js:48 | the label has the key's length; its first character is upper-cased and the rest is the key's; an empty key gives an empty label |
| Content.LabelFacts | script.js:48 | capitalising twice is capitalising once; a key starting with a lower-case letter is changed |
| Content.ContactAnchor | script.js:49-53 | `'email'` links to `mailto:` + value with the value as text and no target; any other key links to the value in `_blank` with the label as text |
| Content.ContactMarkup | script.js:49-53 | the contact item's `innerHTML` is the anchor markup of `ContactAnchor`; its equality with the two source templates is `EmailTemplate` and `LinkTemplate` |
| Content.EmailTemplate | script.js:50 | an `email` entry renders as `<a href="mailto:` value `" class="underline">` value `</a>` |
| Content.LinkTemplate | script.js:52 | any other entry renders as `<a href="` value `" target="_blank" class="underline">` label `</a>` |
| Content.ProjectMarkup | script.js:33-34 | the project block's `innerHTML`, built from the fixed template fragments; `ProjectTemplate` proves it equals the source template |
| Content.ProjectTemplate | script.js:33-34 | a project renders as the new-tab link with its title, then a `text-sm` paragraph with its description, values inserted verbatim |
| Content.CvItemMarkup | script.js:22-24 | the definition is the source's three-paragraph template: role, then organisation and period joined by an en dash, then details, values inserted verbatim |
| Content.ItemNode | script.js:20-24 | the definition is the item `div` with class `mt-2` whose `innerHTML` is `CvItemMarkup` |
| Content.HeadingNode | script.js:14-16 | the definition is the `h4` with class `text-xl font-medium` whose `textContent` is the category |
| Content.SectionNode | script.js:13-27 | the definition is the section `div`: its heading, then one item `div` per item, in order |
| Content.ProjectNode | script.js:32-34 | the definition is the project `div` whose `innerHTML` is `ProjectMarkup` |
| Content.SkillNode | script.js:40-41 | the definition is the `li` whose `textContent` is the skill |
| Content.ContactNode | script.js:47-53 | the definition is the `li` whose `innerHTML` is `ContactMarkup` of the entry's key and value |
| Content.BuildSection | script.js:13-26 | the section element built by the inner loop is `SectionNode` of the section |
| Content.SectionLayout | script.js:12-28 | a section is its `category` heading, then one item block per item, in item order |
| Content.CvItemMarkupAmbiguous | script.js:22-24 | values go in unescaped, so an org ending in " – x" and a period starting with "x – " render identical markup |
| Content.OneChildPerEntry | script.js:30-55 | the CV, project, skill and contact lists each gain exactly one child per input entry, in order |
| Content.Page.LoadContent | script.js:1-56 | sets the title and the four text fields; each list becomes its old children followed by one block per entry |
| Content.Page.SetTexts | script.js:5-9 | the document title and the name, title, summary and about texts |
| Content.Page.AppendCv | script.js:11-28 | `cvList` gains one section element per CV section, in order |
| Content.Page.AppendProjects | script.js:30-36 | `projectsList` gains one project block per project, in order |
| Content.Page.AppendSkills | script.js:38-43 | `skillsList` gains one `li` per skill, in order |
| Content.Page.AppendContacts | script.js:45-55 | `contactList` gains one `li` per contact entry, in property order |

## Left out

- Network and parsing: `fetch('data.json')` and `res.json()`. The model starts from the parsed document, and a missing key (which would throw in `forEach`) is not modelled.
- A missing element: `?.` on a null toggle, menu or heading, and the early return when `#hero-name` is absent. The model assumes every element exists.
- The toggle's visual feedback timeout (`scale(0.95)`), the ripple effect, the particles (`Math.random`), smooth-scroll offsets and the scroll-progress bar. These are layout, floating point and randomness with no state to model.
- The loading-state `innerHTML` helpers, the empty debounced scroll handler, the global error listener and service-worker registration.
- DOM text nodes and HTML parsing. `innerHTML` is kept as the assigned string, and element trees only as far as `script.js` builds them.
- Content.ToUpper: only ASCII letters are upper-cased. Full Unicode case mapping, which can change a string's length, is not modelled.
- Content.Label: inherits the ASCII-only upper-casing of `ToUpper`, and strings are sequences of code points rather than UTF-16 code units.
- Typing.Typewriter.TypeWriter: the heading text is a sequence of code points, whereas `.length` and `substring` count UTF-16 code units. With a character outside the Basic Multilingual Plane in the heading, the source takes one more step per such character and briefly shows half a surrogate pair; the model does neither, and `Typing.Cycle`'s `2n + 2` firings and `150n + 2100` ms count code points.
- Timers are a logical clock. Two timers due at the same instant and browser timer clamping are not modelled. At most one typewriter or debounce timer is ever pending, so ordering between timers does not arise.
