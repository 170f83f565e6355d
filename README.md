# SoftSell landing page: the three stateful widgets, in Dafny

The SoftSell landing page is mostly layout and animation. Three of its
components hold real logic, and this project models those three:

- **Contact form** (`contact_form.dfy`, module `ContactForm`). It keeps a
  five-field draft (name, email, company, licence type, message) and a parallel
  record of error strings. `ValidateForm` copies the error record, rewrites
  each field's error and clears a `valid` flag on every failed rule. The rules
  are:
  - name, company and message must not be blank after trimming;
  - the email is checked for blankness first, and then the UNTRIMMED email must
    match `^[^\s@]+@[^\s@]+\.[^\s@]+$`;
  - the licence type must not be the empty string.

  The class `ContactFormState` holds the component's state. `HandleChange`
  updates one field and clears that field's stale error. Submitting is split
  into three events: `HandleSubmit` (validate, then start submitting),
  `SubmissionResolves` (the simulated 2000 ms request ends, so the success
  message shows) and `ResetFires` (3000 ms later, the draft is emptied).

  The regular expression is modelled twice. `MatchesEmailPattern` is a grammar
  reading: the string splits at an '@' and a later '.' into three non-empty runs
  of `[^\s@]`. `EmailPatternTest` is an executable matcher, and its contract states that
  the two agree on every string.
- **Chat widget** (`chat_widget.dfy`, module `ChatWidget`). It keeps an
  append-only transcript that starts with one bot greeting.
  - `HandleSendMessage` ignores blank input. Otherwise it appends the user's
    untrimmed text with id `length + 1`, clears the input, turns on the typing
    indicator and schedules a canned reply.
  - `DeliverReply` is the 1000 ms timer. It appends the oldest scheduled reply
    with id `length + 2` and turns the indicator off.
  - Every reply waits the same time, so scheduled replies fire in send order.
    They are kept as a queue of texts fixed at send time.
  - The random pick is a caller-supplied index below 4.

  The `Valid()` invariant states the id rule by position: the greeting has id 1,
  a user message at index k has id k + 1, and a bot reply at index k has id
  k + 2. As a result, ids are not unique: a reply followed by a send gives two
  messages the same id.
- **Theme provider** (`theme_provider.dfy`, module `ThemeProvider`). The theme
  starts as 'light'.
  - The mount effect uses a stored value if there is one; otherwise it uses the
    system preference and registers a change handler.
  - The handler tests the `stored` value it captured at mount. So it keeps
    following the system preference even after `ToggleTheme` has written to
    storage.
  - `ApplyThemeClass` removes 'light' and 'dark' from the document's classes
    and adds the theme.
  - Storage, what the `(prefers-color-scheme: dark)` query matches, and the
    class list are fields of the object. A system change is an event that
    flips the preference, as a media query fires 'change' only then.

`text.dfy` (module `Text`) models JavaScript's `String.prototype.trim` over
the ECMA-262 whitespace set. The `\s` class of the email pattern uses the
same set.

Where the code does less than its own types and data suggest, the model
follows the code:

- the licence type is only checked for being non-empty. The component lists
  six options (src/components/ContactForm.tsx:30), but the validator never
  consults that list;
- message ids are not unique, although the transcript uses them as React keys
  (src/components/ChatWidget.tsx:107), which assumes they are;
- the stored theme is not checked to be 'light' or 'dark'. The value is cast
  with `as 'light' | 'dark'` (src/components/theme-provider.tsx:19), not
  tested. The empty string counts as nothing stored, and any other string
  becomes the theme as it is.

## Model

| member | source | states |
|---|---|---|
| `Text.Trim` | src/components/ContactForm.tsx:50 | `s.trim()` is empty exactly when every character of `s` is whitespace; otherwise it neither starts nor ends with whitespace |
| `Text.TrimStart` | src/components/ContactForm.tsx:50 | removes the longest all-whitespace prefix and leaves a suffix of the input |
| `Text.TrimEnd` | src/components/ContactForm.tsx:50 | removes the longest all-whitespace suffix and leaves a prefix of the input |
| `ContactForm.FieldRecord.Set` | src/components/ContactForm.tsx:36-39 | `{...prev, [name]: value}` sets the named field and keeps the other four |
| `ContactForm.EmailPatternTest` | src/components/ContactForm.tsx:55 | `emailRegex.test` accepts exactly the strings that split as `[^\s@]+ @ [^\s@]+ . [^\s@]+` |
| `ContactForm.FieldRules` | src/components/ContactForm.tsx:50-77 | each field of the error record (`FieldError`, collected by `ExpectedErrors`) is empty or one of that field's own messages; "required" fires exactly when the field is missing (blank after trimming; for the licence type, the empty string); a present email gets no error exactly when it matches the pattern |
| `ContactForm.ValidateForm` | src/components/ContactForm.tsx:46-80 | the new error record is the rule table applied to every field, and the result is true iff all five errors are the empty string |
| `ContactForm.PassesIffEveryRuleHolds` | src/components/ContactForm.tsx:46-80 | a draft passes iff name, company and message are not blank, the email is not blank and matches the pattern, and a licence type is chosen |
| `ContactForm.EmailErrorCases` | src/components/ContactForm.tsx:55-62 | blank email gives "Email is required"; otherwise a non-matching email gives "Invalid email format"; otherwise "" ("required" wins) |
| `ContactForm.EmailPatternExamples` | src/components/ContactForm.tsx:55 | the pattern accepts "a@b.co" and rejects "not-an-email", "a@b", "@b.co" and "a@b@c.co" |
| `ContactForm.MatchHasNoWhitespace` | src/components/ContactForm.tsx:55 | no character of a matching string is whitespace |
| `ContactForm.UntrimmedEmailIsInvalid` | src/components/ContactForm.tsx:56-60 | a non-blank email holding whitespace anywhere gets "Invalid email format", because the pattern sees the untrimmed value |
| `ContactForm.LeadingSpaceEmailIsInvalid` | src/components/ContactForm.tsx:56-60 | " a@b.co" passes the required check and fails with "Invalid email format" |
| `ContactForm.LicenseTypeNotCheckedAgainstOptions` | src/components/ContactForm.tsx:69-72 | the licence type gets "Please select a license type" exactly when it is the empty string; any other value, including one outside the six options of line 30, gets no error |
| `ContactForm.SampleEmailMatches` | src/components/ContactForm.tsx:55 | "john@company.com" matches the pattern |
| `ContactForm.SampleDraftPasses` | src/components/ContactForm.tsx:46-80 | the draft John Doe / john@company.com / Acme / Adobe / Hello passes validation |
| `ContactForm.ContactFormState.constructor` | src/components/ContactForm.tsx:11-28 | the draft and the error record start all empty, and neither flag is set |
| `ContactForm.ContactFormState.HandleChange` | src/components/ContactForm.tsx:32-44 | only the named field changes; its error becomes "" whatever the new value is; other errors and both flags are unchanged |
| `ContactForm.ContactFormState.HandleSubmit` | src/components/ContactForm.tsx:83-86 | errors become the rule table's; `isSubmitting` becomes true iff valid; the draft and `showSuccess` are unchanged, so an invalid submit changes neither flag |
| `ContactForm.ContactFormState.SubmissionResolves` | src/components/ContactForm.tsx:89-93 | the success message shows and submitting stops; the draft and errors are unchanged |
| `ContactForm.ContactFormState.ResetFires` | src/components/ContactForm.tsx:96-105 | the draft is emptied and the success message hidden; errors are empty (kept by the invariant) |
| `ContactForm.ValidSubmitScenario` | src/components/ContactForm.tsx:83-107 | a valid draft goes submitting, then success, then an empty draft with no errors and both flags down |
| `ChatWidget.PickReply` | src/components/ChatWidget.tsx:42-49 | the reply is always one of the four catalog strings |
| `ChatWidget.EveryReplyReachable` | src/components/ChatWidget.tsx:42-49 | every catalog string is picked by some index in [0, 4) |
| `ChatWidget.ReplyThenSendShareId` | src/components/ChatWidget.tsx:37-53 | in a transcript numbered as the widget numbers it, a bot reply directly followed by a user message has the same id |
| `ChatWidget.UserMessagePersists` | src/components/ChatWidget.tsx:67 | once a user message exists, every extension of the transcript holds one, so the pulse stays off |
| `ChatWidget.AppendUserKeepsTranscriptValid` | src/components/ChatWidget.tsx:34-37 | appending a non-blank user message with id length + 1 keeps the transcript well formed: greeting first, numbered by position, user texts non-blank, replies from the catalog |
| `ChatWidget.AppendBotKeepsTranscriptValid` | src/components/ChatWidget.tsx:52-55 | appending a catalog reply with id length + 2 keeps the transcript well formed |
| `ChatWidget.ChatWidget.constructor` | src/components/ChatWidget.tsx:12-17 | the transcript is exactly the greeting with id 1; closed, empty input, not typing |
| `ChatWidget.ChatWidget.SetInput` | src/components/ChatWidget.tsx:153 | the input takes the typed text; nothing else changes |
| `ChatWidget.ChatWidget.HandleSendMessage` | src/components/ChatWidget.tsx:33-49 | blank input changes nothing; otherwise exactly `{id: oldLen+1, text: input, sender: user}` is appended, the input is cleared, typing is on and the chosen reply is queued |
| `ChatWidget.ChatWidget.DeliverReply` | src/components/ChatWidget.tsx:52-55 | exactly one bot message `{id: lenBefore+2, text: oldest queued reply}` is appended, earlier messages are kept and typing is off even if replies remain |
| `ChatWidget.ChatWidget.PulseOn` | src/components/ChatWidget.tsx:67 | the launcher pulses exactly when the widget is closed and every message so far is the bot's |
| `ChatWidget.PulseStaysOffOnceSent` | src/components/ChatWidget.tsx:67 | once the transcript holds a user message, the pulse is off for every extension of the transcript and either value of the open flag |
| `ChatWidget.ChatWidget.ToggleOpen` | src/components/ChatWidget.tsx:71 | `isOpen` flips; nothing else changes |
| `ChatWidget.DuplicateIdScenario` | src/components/ChatWidget.tsx:37-53 | after greeting, send, reply and send, the reply and the second user message both have id 4 |
| `ChatWidget.PulseScenario` | src/components/ChatWidget.tsx:67-71 | the pulse is on at first and off after the first send, after a later reply and with the widget closed |
| `ThemeProvider.Flipped` | src/components/theme-provider.tsx:50 | toggling always gives 'light' or 'dark', and never the theme it started from |
| `ThemeProvider.ToggleTwiceRestores` | src/components/theme-provider.tsx:49-54 | toggling twice restores a 'light' or 'dark' theme |
| `ThemeProvider.SystemTheme` | src/components/theme-provider.tsx:32 | the theme is 'dark' iff the system prefers dark, and 'light' otherwise |
| `ThemeProvider.ThemeProvider.constructor` | src/components/theme-provider.tsx:15 | the theme is 'light' before the mount effect runs; storage, the system preference and the classes are whatever the browser holds |
| `ThemeProvider.ThemeProvider.ApplyThemeClass` | src/components/theme-provider.tsx:43-47 | the class set contains the theme; any other class is present iff it was present before and is neither 'light' nor 'dark' |
| `ThemeProvider.ThemeProvider.Mount` | src/components/theme-provider.tsx:18-38 | a stored value wins; with nothing stored the current system preference decides and the handler is registered; the class list then shows the theme |
| `ThemeProvider.ThemeProvider.SystemChange` | src/components/theme-provider.tsx:22-28 | the theme follows the event only while the handler is registered and nothing was stored at mount, and the class list then shows it; otherwise the theme and classes stay; in both cases the recorded preference becomes the event's and classes other than 'light' and 'dark' are kept |
| `ThemeProvider.ThemeProvider.ToggleTheme` | src/components/theme-provider.tsx:49-54 | the theme flips, is written to storage and is shown by the class list; other classes are unchanged |
| `ThemeProvider.ThemeProvider.Unmount` | src/components/theme-provider.tsx:40 | the effect's cleanup removes the system-change handler |
| `ThemeProvider.SystemChangeAfterToggleScenario` | src/components/theme-provider.tsx:22-31 | with nothing stored at mount, a toggle writes 'dark' to storage, yet later system changes to dark and back to light still drive the theme, which ends 'light' |
| `ThemeProvider.UncheckedStoredValueScenario` | src/components/theme-provider.tsx:19-37 | a stored "blue" becomes the theme at mount; two toggles then give 'dark' |

## Left out

- Everything presentational: the navbar, hero, footer, sections, testimonials
  and app shell, framer-motion and Lottie animations, `scrollIntoView`, input
  focus, and CSS keyframes. None of it holds statable logic.
- Real timer durations and React's state batching and re-rendering. The three
  timers are explicit events that the caller invokes. Functional updates such
  as `setMessages(prev => ...)` are sequential assignments.
- `Math.random`: it is replaced by a chosen index below 4.
- The JavaScript regular-expression engine: the pattern is a hand-written
  matcher, proved equal to a grammar reading of the pattern.
- `console.log` of the submitted draft.
- Browser APIs: `localStorage`, the `matchMedia` query's `matches` and
  `classList`. They are abstract fields, and the methods that could throw in a browser (a failed storage
  write, or a class token containing whitespace) are modelled as always
  succeeding.
- ContactForm.ContactFormState.HandleSubmit: requires that the form is
  neither submitting nor showing success. The form is not rendered during
  success (src/components/ContactForm.tsx:180) and its submit button is
  disabled while submitting (src/components/ContactForm.tsx:315); a second
  submit in those states is not modelled.
- ChatWidget.ChatWidget.DeliverReply: requires a scheduled reply, since a
  timer fires only after a send has scheduled it.
- ThemeProvider.ThemeProvider.SystemChange: requires that the event flips
  the recorded preference, since the media query fires 'change' only when
  what it matches changes.
- Pending timers that fire after the component unmounts are not modelled.
