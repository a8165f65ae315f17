# Portfolio site: a Dafny model of its decision logic

The site is a personal portfolio written with a React framework, plus a stand-alone page
script (`main.js`). Almost all of it is markup. This project models the few parts that make
decisions over plain records, and proves what those decisions promise:

- **Projects page** (`app/projects/page.tsx`), module `Projects`. The listing is loaded once, and the
  fixed mock list replaces it after a response that is not ok or after an exception. The
  `filterProjects` pipeline is then run: a case-insensitive search over name, description and
  topics, a language filter with Vue/React name heuristics, and a descending stable sort by stars,
  forks, creation or update time.
- **Statistics strip** (`components/project-stats.tsx`), module `Stats`. It shows the project count, the
  star and fork totals (left folds, proved equal to plain sums), and the number of distinct
  truthy languages.
- **Project card** (`components/project-card.tsx`), module `Card`. It has fallbacks for a missing
  language or description, at most three topic chips, and a `+N` badge.
- **Page script** (`main.js`), module `PortfolioScript`. It covers the language colour table with its
  default, the image slot cycle, the card values, and the loading path with its fallback list.
  `PortfolioApp` is a class whose `projects` and `grid` fields are updated in place.
- **Navigation bar** (`components/navigation.tsx`), module `Nav`. It covers the menu toggle, the
  scroll tracker (the first section, in fixed order, whose interval holds `scrollY + 100`), and the
  highlighting of menu items and separators.
- **Contact form** (`components/contact-form.tsx`), module `Contact`. It covers the schema as a
  validator with its field messages, the default values, the submit status machine, and the
  priority order of the submit button's faces.
- **Theme toggle** (`components/theme-toggle.tsx`), module `Theme`. It covers the toggle, the icon
  and rotation, and the mounted guard.

`Common` holds `Option`, the outcome of a network read, JavaScript's `||` on nullable strings,
lower-casing, and `includes`. `Types` holds the records of `types/index.ts`.

Modelling choices:

- Inputs stand in for what the code gets from outside. A fetch becomes a `FetchOutcome`
  (`Ok(data)`, `NotOk` or `Threw`). The presence of the `#projects-grid` element becomes
  `PortfolioApp.gridPresent`. Section elements become a map from section id to
  `offsetTop`/`offsetHeight`. The email syntax check becomes a function parameter `isEmail`. The
  random success of the simulated submit becomes `succeeded`.
- Timestamps are integers that only need to preserve the order of the instants, since the
  comparator uses only the sign of a difference. The mock dates are written as
  `YYYYMMDDhhmmss`, which orders these UTC timestamps correctly.
- `Array.prototype.sort` is modelled by value as a stable insertion sort. The language requires
  the sort to be stable, and the comparator `key(b) - key(a)` asks for a descending order.
- `topics` is typed as a non-null array in `types/index.ts:12`, but the card and the search guard
  against `null`. The model keeps it as `Option<seq<string>>`, so the `null` case is covered.
- String lengths in the contact form's rules are JavaScript's `length`, the number of UTF-16
  code units (`Contact.Utf16Length`): a character above U+FFFF counts twice.
- The form library re-validates on change once a submit has been attempted. `ContactForm.submitted`
  records the attempt, and `Edit` then recomputes the edited field's error.
- `ProjectsPage` re-runs `filterProjects` in an effect whenever `projects`, `searchQuery`,
  `selectedLanguage` or `sortBy` change (`app/projects/page.tsx:25-27`). In the model that effect is
  the seam between `FetchProjects` and `FilterProjects`: a caller runs `FilterProjects` after each change.
- `PortfolioApp`'s constructor calls `init()`, which starts `loadGitHubProjects()` among other
  set-up steps (`main.js:13-22`). In the model the constructor gives the state before loading, an empty
  grid standing for the grid as the static markup has it, and a caller runs `LoadGitHubProjects` next.
- `displayFallbackProjects` (`main.js:351-354`) returns before assigning `this.projects` when
  the page has no `#projects-grid` element. The model follows the code here. The fallback list
  replaces `projects` only when the grid exists; otherwise `projects` keeps its old value.

## Model

| member | source | states |
|---|---|---|
| `Common.OrDefault` | main.js:286 | `s \|\| d` gives `d` exactly for null/undefined and the empty string, and `s` otherwise |
| `Common.Lower` | app/projects/page.tsx:151-153 | `toLowerCase` keeps the length and lower-cases each character in place (ASCII letters only) |
| `Common.IncludesIffOccurs` | app/projects/page.tsx:151-153 | the `includes` search answers true exactly when the needle occurs at some position of the haystack |
| `Projects.LanguageTags` | app/projects/page.tsx:184 | the tag list has eight entries, starts with `'all'`, and has no other `'all'` |
| `Projects.MockProjects` | app/projects/page.tsx:46-143 | the mock list has six records, with ids 1 to 6 in order |
| `Projects.Select` | app/projects/page.tsx:150-163 | a filter never lengthens the list, and every kept record is from the list and passes the criterion |
| `Projects.SelectCount` | app/projects/page.tsx:150-163 | a filter keeps every copy of an accepted record and no copy of a rejected one |
| `Projects.Insert` | app/projects/page.tsx:167-179 | inserting adds exactly one element (multiset equality) |
| `Projects.SortDesc` | app/projects/page.tsx:167-179 | the sort is a permutation of its input |
| `Projects.InsertSorted` | app/projects/page.tsx:167-179 | inserting into a list with non-increasing keys keeps the keys non-increasing |
| `Projects.SortDescSorted` | app/projects/page.tsx:167-179 | the sorted list has non-increasing keys |
| `Projects.WithKeyAppend` | app/projects/page.tsx:167-179 | taking the records with a given key distributes over concatenation |
| `Projects.InsertStable` | app/projects/page.tsx:167-179 | insertion keeps the relative order of records with equal keys |
| `Projects.SortDescStable` | app/projects/page.tsx:167-179 | the sort is stable: for every key value, the records with that key appear in input order |
| `Projects.SelectAppend` | app/projects/page.tsx:150-163 | filtering distributes over concatenation |
| `Projects.SelectWithKey` | app/projects/page.tsx:150-163 | `filter` keeps relative order: it commutes with taking the records of one sort key |
| `Projects.QueryStable` | app/projects/page.tsx:145-181 | for every key value, the result's records with that key are exactly the filtered loaded records with that key, in loaded order |
| `Projects.QueryCount` | app/projects/page.tsx:145-181 | each record occurs in the result as often as in the loaded list when it passes both filters, and not at all otherwise |
| `Projects.Query` | app/projects/page.tsx:145-181 | the pipeline result is never longer than the loaded list |
| `Projects.QueryFromInput` | app/projects/page.tsx:146-164 | the result is a sub-multiset of the loaded list: no record appears more often than it was loaded |
| `Projects.QueryMembership` | app/projects/page.tsx:149-164 | a record is shown iff it is loaded, matches the query (name, description or a topic, case-insensitive) unless the query is empty, and matches the tag (equal language, or Vue/React by name) unless the tag is `'all'` |
| `Projects.QueryKeepsAll` | app/projects/page.tsx:149-167 | an empty query with tag `'all'` gives a permutation of the loaded list |
| `Projects.QueryOrdered` | app/projects/page.tsx:166-179 | `'stars'` gives non-increasing star counts, `'forks'` non-increasing forks, `'created'` newest creation first, and `'updated'` or any other key newest update first |
| `Projects.ProjectsPage.constructor` | app/projects/page.tsx:13-19 | empty lists, loading, empty query, tag `'all'`, sort `'updated'` |
| `Projects.ProjectsPage.FetchProjects` | app/projects/page.tsx:29-44 | after an ok response the list is the data; after a response that is not ok, or an exception, it is exactly the mock list; `loading` is false after every outcome |
| `Projects.ProjectsPage.FilterProjects` | app/projects/page.tsx:145-182 | the filtered list becomes the pipeline result over the current list, query, tag and sort key |
| `Stats.ReduceIsSum` | components/project-stats.tsx:13-14 | the `reduce` fold from an accumulator equals that accumulator plus the sum of the counts |
| `Stats.SumAppend` | components/project-stats.tsx:13-14 | the sum of a concatenation is the sum of the sums |
| `Stats.TotalStarsIsSum` | components/project-stats.tsx:13 | `totalStars` is the sum of the star counts, and 0 for no projects |
| `Stats.TotalForksIsSum` | components/project-stats.tsx:14 | `totalForks` is the sum of the fork counts, and 0 for no projects |
| `Stats.TotalStarsAppend` | components/project-stats.tsx:13 | appending a project raises `totalStars` by exactly its star count |
| `Stats.LanguageSetMembers` | components/project-stats.tsx:15 | the language set holds exactly the languages of the projects that are neither null nor empty |
| `Stats.LanguageCountBound` | components/project-stats.tsx:15 | there are never more distinct languages than projects |
| `Stats.StatTiles` | components/project-stats.tsx:12-42 | four tiles in the order Total Projects, GitHub Stars, Forks, Languages, with values the length, the two sums and the language count (at most the length) |
| `Card.ProjectCard` | components/project-card.tsx:16-89 | a null or empty language shows `'Unknown'` and a null or empty description `'No description available'`, otherwise the value unchanged; null topics count as none; the topic row shows iff there are topics; the chips are the first min(3, n) topics in order; the `+N` badge shows iff n > 3, with N = n - 3, so chips and badge account for all n topics; name, star and fork counts and the repository link are the record's own |
| `PortfolioScript.LanguageColor` | main.js:326-349 | a listed language gets its table entry and anything else, null and undefined included, gets `#6b7280` |
| `PortfolioScript.LanguageColorDefaultIff` | main.js:348 | the default colour shows exactly for languages the table does not list |
| `PortfolioScript.LanguageColorExamples` | main.js:327-347 | TypeScript is `#2b7489`, Dockerfile `#384d54`; lookup is case-sensitive and null gets the default |
| `PortfolioScript.ImageIndex` | main.js:287 | the computed image slot is always in 1..5 (the markup does not use it) |
| `PortfolioScript.ImageIndexPeriodic` | main.js:287 | the computed slot repeats with period 5, and cards 0..4 get 1..5 |
| `PortfolioScript.CreateProjectCard` | main.js:280-324 | colour from the table, description and language with their fallbacks, the computed slot `(index % 5) + 1`, name, counts and link unchanged |
| `PortfolioScript.CardSlotCycle` | main.js:287 | a card's slot depends only on its position, repeats every five cards, and cards 0..4 get slots 1..5 |
| `PortfolioScript.FallbackProjects` | main.js:355-404 | six records, all linking to `#` and all with a description and language |
| `PortfolioScript.PortfolioApp.constructor` | main.js:11 | no projects and an empty grid at start |
| `PortfolioScript.PortfolioApp.DisplayProjects` | main.js:258-278 | with a grid: one card per project, in order, each built from its own index; without one: nothing changes |
| `PortfolioScript.PortfolioApp.DisplayFallbackProjects` | main.js:351-408 | with a grid: `projects` becomes exactly the six fallback records, in order, and is shown; without one: nothing changes |
| `PortfolioScript.PortfolioApp.LoadGitHubProjects` | main.js:242-256 | an ok response sets `projects` to the data; a response that is not ok and an exception both take the fallback path |
| `Nav.FirstFoundSpec` | components/navigation.tsx:63-72 | the search yields the earliest section whose element exists and whose interval holds the position, and yields nothing iff no section qualifies |
| `Nav.ActiveAfterScrollRange` | components/navigation.tsx:59-73 | after a scroll the active section is one of the four sections or the previous value, and a new value's interval holds `scrollY + 100` |
| `Nav.ActiveItem` | components/navigation.tsx:140 | menu item i is highlighted iff the active section is its `href` without `#`, so at most one item is |
| `Nav.SocialSeparators` | components/navigation.tsx:106 | of the three social links, the first two get the right border and the last does not |
| `Nav.Navigation.constructor` | components/navigation.tsx:24-25 | the menu starts closed with `'home'` active |
| `Nav.Navigation.ToggleMenu` | components/navigation.tsx:87 | the menu button flips `isOpen` |
| `Nav.Navigation.ScrollToSection` | components/navigation.tsx:28-29 | navigating to a section always closes the menu |
| `Nav.Navigation.HandleScroll` | components/navigation.tsx:59-73 | the active section becomes the first section found at `scrollY + 100`, and stays unchanged when none is found |
| `Contact.Utf16Length` | components/contact-form.tsx:14-18 | the length `min` compares is at least the character count and at most twice it, and 0 only for the empty string |
| `Contact.Utf16LengthBmp` | components/contact-form.tsx:14-18 | without characters above U+FFFF the length equals the character count |
| `Contact.EmojiFirstName` | components/contact-form.tsx:14 | a first name of one emoji (two code units) passes `min(2)` |
| `Contact.OtherFields` | components/contact-form.tsx:88 | keeps exactly the errors of the other fields |
| `Contact.Refreshed` | components/contact-form.tsx:88 | after re-validating field f, f's error is listed iff its rule fails on the new values, and every other field's errors are unchanged |
| `Contact.Errors` | components/contact-form.tsx:13-22 | every reported error belongs to a field whose rule fails |
| `Contact.ErrorsReport` | components/contact-form.tsx:13-22 | a field's error is reported iff the field is checked and its rule fails |
| `Contact.FieldErrorShown` | components/contact-form.tsx:13-22 | the schema reports a field's message exactly when that field's rule fails |
| `Contact.ValidIff` | components/contact-form.tsx:13-22 | the form is valid iff both names have UTF-16 length at least 2, the email is valid, the subject is non-empty, the message has UTF-16 length at least 10 and privacy is agreed to |
| `Contact.DefaultValuesInvalid` | components/contact-form.tsx:36-43 | the default values fail validation whatever the email check says, with errors on both names, subject, message and privacy |
| `Contact.ButtonFace` | components/contact-form.tsx:205-225 | the button face follows the priority submitting > success > error > idle |
| `Contact.ButtonClass` | components/contact-form.tsx:195-203 | the colour ternary agrees with the label's face: grey and not-allowed exactly while submitting, then green for success, red for error, blue for idle |
| `Contact.DisabledIffSending` | components/contact-form.tsx:194-210 | the button is disabled exactly when it reads "Sending..." |
| `Contact.ContactForm.constructor` | components/contact-form.tsx:25-43 | not submitting, status idle, the default values, no errors, no submit attempted |
| `Contact.ContactForm.Edit` | components/contact-form.tsx:79-88 | typing replaces the current values; before any submit the errors are unchanged, after one the edited field is re-validated |
| `Contact.ContactForm.BeginSubmit` | components/contact-form.tsx:46-48 | submitting starts with `isSubmitting` true and status idle |
| `Contact.ContactForm.FinishSubmit` | components/contact-form.tsx:50-67 | afterwards `isSubmitting` is false; success sets `'success'` and resets the form to its defaults; failure sets `'error'` and keeps the values |
| `Contact.ContactForm.HandleSubmit` | components/contact-form.tsx:79 | an invalid form shows its errors and never reaches the submit path; a valid one is submitted and ends not submitting, with success or error; either way a submit has been attempted |
| `Theme.Toggled` | components/theme-toggle.tsx:24 | `'light'` toggles to `'dark'`, and every other value, `'system'` and undefined included, to `'light'` |
| `Theme.ToggledTwice` | components/theme-toggle.tsx:24 | two clicks from `'light'` or `'dark'` return to it |
| `Theme.ViewFor` | components/theme-toggle.tsx:30-37 | the Moon and rotation 0 show iff the theme is `'light'`, otherwise the Sun and 180 |
| `Theme.ClickChangesIcon` | components/theme-toggle.tsx:24-37 | every click changes the icon shown |
| `Theme.ThemeToggle.constructor` | components/theme-toggle.tsx:10 | the toggle starts unmounted |
| `Theme.ThemeToggle.Mount` | components/theme-toggle.tsx:12-14 | the mount effect sets `mounted` |
| `Theme.ThemeToggle.Render` | components/theme-toggle.tsx:16-40 | nothing is rendered until mounted; afterwards the Moon shows iff the theme is `'light'` |
| `Theme.ThemeToggle.Click` | components/theme-toggle.tsx:24 | a click on the mounted button sets the toggled theme; before mounting there is no button, and nothing changes |

## Left out

- The 3D renderers and particle effects, the random point clouds and the smoothstep colour
  interpolation. They are per-frame floating-point work inside a foreign rendering library.
- The network reads, JSON parsing and `new Date(...).getTime()`. Only the ok / not-ok / thrown
  outcome is an input; timestamps are integers. Invalid dates, whose `NaN` would make the
  comparator inconsistent, are not modelled.
- Unicode case mapping: `Lower` maps only the ASCII letters, where JavaScript's `toLowerCase`
  maps all of Unicode.
- Email syntax, which the validation library decides; it is the parameter `isEmail`.
- The 2-second delay, the random 90% success, toasts and console logging. The submit outcome is
  an input, and the await between `BeginSubmit` and `FinishSubmit` is the seam between those two methods.
- DOM, scrolling, scroll-snap, `requestAnimationFrame`, `setTimeout`, animation and reveal plumbing,
  the mobile menu alert, and the generated markup of cards. A card is the record of the values it shows.
- `PortfolioApp.DisplayProjects` does not model an exception while rendering (for example a
  missing animation library). Such an exception would reach the fallback path.
- `PortfolioScript.LanguageColor` does not model the lookup of property names inherited by plain
  objects (`colors['constructor']` is a function, not `undefined`). No language name is one of them.
- `animationDelay` (`index * 0.1` seconds) is a floating-point display value.
- `components/projects-preview.tsx` and `components/project-modal.tsx` repeat the card logic and the fetch.
  The card's language colour uses `getLanguageColor` and its "Updated" label uses `formatDate`, both
  from `lib/utils`, which is not part of this model; `Card.ProjectCard` has neither value.
- The static pages and presentational components have no decision logic to model.
- `Stats.StatTiles` does not model the icon components. Each tile keeps its title, value and colour class.
- `Theme.ThemeToggle.Click` does not model the theming library's storage or system preference.
  `theme` is a field standing for the library's current value.
