# MindGuard page logic in Dafny

MindGuard is a React wellness app. Most of it is markup, but a few of its
pages hold small rules. This project models those rules and proves
properties about them. The pages share state only through the browser's
`localStorage`, so the store is modelled as a class `Storage.LocalStore`
holding one `map<string, string>`.

- **Dashboard** (`dashboard.dfy`, `chatbot.dfy`):
  - a keyword chatbot with twenty ordered rules. Each rule tests a
    case-insensitive, unanchored alternation and contributes its advice when
    it matches. The advice strings are joined with single spaces, and a
    fixed fallback answers when no rule fires;
  - the transcript that `handleSend` extends;
  - the attached reports: upload appends, delete removes by index, and
    both save the list as JSON under `reports`;
  - the check-in feedback banner and its dismissal;
  - the greeting by hour and the avatar initials;
  - the hydration of `user`, `reports` and `dashboardFeedback` from the store.
- **Daily check-in** (`dailycheckin.dfy`): the form's defaults, the
  mood-emoji and stress-colour classifiers, and the submit handler. Submit
  writes the trimmed note and the first sleep value to the store. Sleep is
  counted in half-hours, the slider's step. Over the slider's range, 1 to
  12 hours, `SleepText` is exactly what `String` prints for that number:
  "7" or "7.5". (`String` switches to exponent notation only from 10^21.)
- **Recommendations** (`recommendations.dfy`):
  - the priority badge colour;
  - the flipped-card set and the completed-activity set, with their handlers;
  - the achievement banner's threshold.
- **Settings** (`settings.dfy`):
  - the settings record and its one-key update;
  - the camel-case label in the toast, with its inverse;
  - logout, which clears the store.
- **Overview** (`overview.dfy`): the sleep tile, which reads `dashboardSleep`
  once and shows it with an "h" or shows the placeholder "7.5h".
- **Cross-page lemmas** (`journeys.dfy`):
  - a check-in's note and sleep value reach the dashboard and the overview;
  - a check-in leaves `reports` and `user` alone;
  - after logout, every page mounts with its defaults.

Supporting modules:
- `text.dfy`:
  - ASCII lower-casing;
  - substring search;
  - `String.prototype.trim` over the full ECMAScript whitespace set;
  - joining with a space;
  - decimal numerals.
- `json.dfy`:
  - the `JSON.stringify` text of a report list and of a profile;
  - a decoder that reads exactly that text back. The round trips and their
    converses are proved.

The rules are tested with `/…/i` in non-Unicode mode. All of the rules'
alternatives are lower-case ASCII, and case-insensitive matching never maps
a character above U+007F onto an ASCII one. So a rule fires exactly when one
alternative occurs in the ASCII-lowercased message, which is what
`Chatbot.Fires` states. Because matching is by substring, one word can fire
several rules: "workout" fires both the exercise rule and, through "work",
the productivity rule. "breathe" fires the diet rule through "eat".

## Model

| member | source | states |
|---|---|---|
| Text.LowerChar | src/pages/Dashboard.tsx:138-197 | only 'A'..'Z' change, each to the letter 32 code points above; the result is never a capital |
| Text.ToLower | src/pages/Dashboard.tsx:138-197 | the lower-cased message keeps its length and lower-cases each character on its own |
| Text.ContainsIff | src/pages/Dashboard.tsx:138-197 | an unanchored alternative matches exactly when it occurs at some index of the text |
| Text.ContainsAt | src/pages/Dashboard.tsx:138-197 | an occurrence at any index is a match |
| Text.NotContainsLonger | src/pages/Dashboard.tsx:138-197 | a pattern longer than the text never matches |
| Text.Trim | src/pages/Dashboard.tsx:133 | `trim` never lengthens the text, and a text of whitespace only trims to "" |
| Text.TrimSlice | src/pages/Dashboard.tsx:133 | `trim` returns a slice of its input and cuts only whitespace from either end |
| Text.TrimNoSpaceAtEnds | src/pages/Dashboard.tsx:133 | what `trim` returns has no whitespace at its first or last position |
| Text.TrimEmptyIff | src/pages/Dashboard.tsx:133 | the input trims to "" exactly when every character is whitespace |
| Text.JoinSpace | src/pages/Dashboard.tsx:204 | joining nothing gives "", joining one string gives that string, and the result starts with the first string |
| Text.NatToString | src/pages/DailyCheckin.tsx:47 | the numeral is non-empty, all digits, and has no leading zero except for 0 |
| Text.NatToStringValue | src/pages/DailyCheckin.tsx:47 | reading the numeral back gives the number |
| Json.ParseStringQuote | src/pages/Dashboard.tsx:218 | a quoted and escaped string parses back to itself and leaves the rest of the text |
| Json.ParseStringCanonical | src/pages/Dashboard.tsx:108 | any string the decoder accepts was written in the escaped form `JSON.stringify` uses |
| Json.ParseReportEncode | src/pages/Dashboard.tsx:218 | one report's JSON object parses back to that report |
| Json.DecodeEncodeReports | src/pages/Dashboard.tsx:216-218 | the text saved under `reports` decodes to the list that was saved |
| Json.DecodeReportsIff | src/pages/Dashboard.tsx:106-109 | the decoder answers a list exactly when the text is that list's JSON |
| Json.DecodeEncodeUser | src/pages/Dashboard.tsx:114-121 | a profile's JSON decodes to that profile |
| Json.DecodeUserIff | src/pages/Dashboard.tsx:114-121 | the decoder answers a profile exactly when the text is that profile's JSON |
| Storage.Lookup | src/pages/Dashboard.tsx:107 | `getItem` answers the stored string when the key is present and nothing otherwise |
| Storage.LoadUser | src/pages/Dashboard.tsx:114-121 | with no `user` key the profile is the default John Doe; any other profile it loads is one whose JSON is exactly the stored text |
| Storage.LoadUserSpec | src/pages/Dashboard.tsx:112-121 | an absent key or a text that is not a profile's JSON keeps John / Doe / john.doe@example.com; a profile's JSON gives that profile |
| Storage.LocalStore.GetItem | src/components/DashboardOverview.tsx:12 | reading a key returns what the map holds for it |
| Storage.LocalStore.SetItem | src/pages/Dashboard.tsx:218 | writing a key replaces its value and leaves every other key |
| Storage.LocalStore.RemoveItem | src/pages/Dashboard.tsx:229 | removing a key drops it and leaves every other key |
| Storage.LocalStore.Clear | src/pages/Settings.tsx:67 | clearing leaves the store empty |
| Chatbot.FiringIndicesSpec | src/pages/Dashboard.tsx:136-197 | the positions of the rules that fire are increasing, in range, and are exactly the rules that fire |
| Chatbot.Fires | src/pages/Dashboard.tsx:138-197 | a rule fires exactly when one of its alternatives occurs somewhere in the lower-cased message |
| Chatbot.FiredAdviceAtIndices | src/pages/Dashboard.tsx:136-197 | the collected advice is, entry by entry, the advice of the rule at the matching firing position |
| Chatbot.CollectAdvice | src/pages/Dashboard.tsx:136-197 | testing the rules in order and pushing the advice of each that fires gives exactly `FiredAdvice` |
| Chatbot.FiredAdviceSpec | src/pages/Dashboard.tsx:136-197 | the collected advice lists exactly the rules that fire, each once, in table order |
| Chatbot.ReplyFallback | src/pages/Dashboard.tsx:200-204 | with no rule firing the reply is the fallback sentence; otherwise it is the space-join of the non-empty collected advice |
| Chatbot.Reply | src/pages/Dashboard.tsx:136-204 | with no rule firing the reply is the fallback sentence; otherwise it starts with the first fired rule's advice |
| Chatbot.ReplyIgnoresCase | src/pages/Dashboard.tsx:138-197 | a message and its lower-cased form get the same reply |
| Chatbot.ComputeReply | src/pages/Dashboard.tsx:136-204 | the push-and-join loop over the rules produces exactly `Reply` |
| Chatbot.WorkoutFiresTwoRules | src/pages/Dashboard.tsx:147-185 | "workout" fires the exercise rule and the productivity rule |
| Chatbot.WorkoutOthersSilent | src/pages/Dashboard.tsx:138-197 | no rule other than exercise and productivity fires on "workout" |
| Chatbot.WorkoutFiringIndices | src/pages/Dashboard.tsx:138-197 | on "workout" exactly the rules at positions 3 and 15 fire |
| Chatbot.WorkoutReply | src/pages/Dashboard.tsx:136-204 | the whole reply to "workout" is the exercise advice, a space, and the productivity advice |
| Chatbot.BreatheFiresDietRule | src/pages/Dashboard.tsx:144-173 | "breathe" fires the mindfulness rule and, through "eat", the diet rule |
| Chatbot.XyzFallsBack | src/pages/Dashboard.tsx:138-202 | a message matching no alternative gets the fallback |
| Dashboard.LoadReportsSpec | src/pages/Dashboard.tsx:106-109 | an absent key loads no reports, a list's JSON loads that list, and the mount fails exactly on a non-empty text that is no list's JSON |
| Dashboard.LoadReports | src/pages/Dashboard.tsx:106-109 | an absent key loads no reports; the mount fails only on a non-empty stored text; a non-empty text that loads is exactly the loaded list's JSON |
| Dashboard.LoadFeedback | src/pages/Dashboard.tsx:111 | the banner text is the stored note, or "" when none is stored |
| Dashboard.DisplayName | src/pages/Dashboard.tsx:125 | the greeting's name is the first name, or "John" when it is empty; never empty |
| Dashboard.Greeting | src/pages/Dashboard.tsx:123-129 | before 12 "Good morning, {name}!", from 12 to 17 "Good afternoon, {name}!", from 18 "Good evening, {name}!" |
| Dashboard.GreetingPeriodMonotone | src/pages/Dashboard.tsx:123-129 | as the hour grows the period never goes back |
| Dashboard.Initials | src/pages/Dashboard.tsx:58 | two letters: the first name's first letter or 'J', and the last name's first letter or 'D' |
| Dashboard.RemoveIndexSpec | src/pages/Dashboard.tsx:222 | the filter drops exactly the element at `idx` and keeps the rest in order; an index out of range changes nothing |
| Dashboard.RemoveIndex | src/pages/Dashboard.tsx:222 | the list loses one entry when `idx` is in range and none otherwise, and gains nothing new |
| Dashboard.AppendThenRemove | src/pages/Dashboard.tsx:216-222 | deleting the report just appended restores the earlier list |
| Dashboard.ReportsPersist | src/pages/Dashboard.tsx:218 | after a list is saved, the next mount loads that list |
| Dashboard.DismissedStaysHidden | src/pages/Dashboard.tsx:227-230 | after a dismissal the next mount finds no note and hides the banner |
| Dashboard.DashboardPage.Mount | src/pages/Dashboard.tsx:102-121 | the transcript starts with the one welcome message, the input is empty, and reports, note and profile come from the store |
| Dashboard.DashboardPage.SetInput | src/pages/Dashboard.tsx:361 | typing replaces the input and nothing else |
| Dashboard.DashboardPage.Send | src/pages/Dashboard.tsx:132-208 | a blank input changes nothing; otherwise the untrimmed user line and the bot's reply are appended after the earlier messages and the input is cleared |
| Dashboard.DashboardPage.Exchange | src/pages/Dashboard.tsx:135-207 | appends the user line and `Reply` of the input, in that order, and clears the input |
| Dashboard.DashboardPage.UploadReports | src/pages/Dashboard.tsx:210-219 | the new files follow the old list in selection order, and `reports` then holds that list's JSON |
| Dashboard.DashboardPage.DeleteReport | src/pages/Dashboard.tsx:221-225 | the list loses its `idx`-th entry, and `reports` then holds the new list's JSON |
| Dashboard.DashboardPage.DismissFeedback | src/pages/Dashboard.tsx:227-230 | the note is cleared and `dashboardFeedback` is removed, nothing else in the store changes |
| Dashboard.WorkoutNotBlank | src/pages/Dashboard.tsx:133 | "workout" is not blank |
| Dashboard.SpacesBlank | src/pages/Dashboard.tsx:133 | three spaces are blank |
| DailyCheckin.SleepTextRoundTrip | src/pages/DailyCheckin.tsx:47 | the stored sleep text reads back as the half-hour count the slider held |
| DailyCheckin.SleepTextInjective | src/pages/DailyCheckin.tsx:47 | different sleep values are stored as different texts |
| DailyCheckin.SleepTextExamples | src/pages/DailyCheckin.tsx:47 | 7 hours is stored as "7", 7.5 hours as "7.5", 12 hours as "12" |
| DailyCheckin.SleepText | src/pages/DailyCheckin.tsx:47 | the text starts with a digit; an odd half-hour count ends in ".5" and an even one is all digits |
| DailyCheckin.MoodEmoji | src/pages/DailyCheckin.tsx:24-27 | 1 to 10 pick the face at `value - 1`, above 10 the last face, 0 and below the neutral face |
| DailyCheckin.MoodEmojiDistinct | src/pages/DailyCheckin.tsx:24-27 | the ten positions show ten different faces, and anything above 10 shows the face of 10 |
| DailyCheckin.StressColor | src/pages/DailyCheckin.tsx:29-33 | success exactly up to 3, warning exactly from 4 to 6, destructive exactly above 6 |
| DailyCheckin.StressColorMonotone | src/pages/DailyCheckin.tsx:29-33 | a higher stress value never gets a calmer colour |
| DailyCheckin.StressEmojiAgrees | src/pages/DailyCheckin.tsx:94-97 | the card's face changes exactly where its colour changes |
| DailyCheckin.StressEmoji | src/pages/DailyCheckin.tsx:97 | the calm, anxious and overwhelmed faces show exactly where the colour is success, warning and destructive |
| DailyCheckin.SubmitEffect | src/pages/DailyCheckin.tsx:35-49 | only `dashboardFeedback` and `dashboardSleep` can change; the trimmed note is written iff it has visible text, otherwise the old note stays; the first sleep value's text is written iff the list is non-empty |
| DailyCheckin.CheckinForm.constructor | src/pages/DailyCheckin.tsx:11-20 | sleep 7 hours, mood 5, stress 3, energy 6, social 3, empty work hours, exercise and notes |
| DailyCheckin.CheckinForm.SetSleep | src/pages/DailyCheckin.tsx:136 | the slider replaces the sleep list and nothing else |
| DailyCheckin.CheckinForm.SetNotes | src/pages/DailyCheckin.tsx:251 | typing replaces the notes and nothing else |
| DailyCheckin.CheckinForm.Submit | src/pages/DailyCheckin.tsx:35-49 | the store afterwards is `SubmitEffect` of the store before |
| Recommendations.PriorityColor | src/pages/Recommendations.tsx:83-90 | High, Medium and Low get their three badge styles, and exactly the other strings get "bg-muted" |
| Recommendations.CatalogWellFormed | src/pages/Recommendations.tsx:14-81 | no catalogue entry shows the muted badge, and the ids are 1 to 6 in order |
| Recommendations.Toggled | src/pages/Recommendations.tsx:100-110 | the id is flipped iff it was not before, and every other id keeps its state |
| Recommendations.ToggleTwice | src/pages/Recommendations.tsx:100-110 | flipping a card twice restores the set |
| Recommendations.ToggleCommutes | src/pages/Recommendations.tsx:100-110 | flips of two cards commute |
| Recommendations.WithCompleted | src/pages/Recommendations.tsx:92-98 | the id is completed, nothing is lost, nothing else is added, and the size grows by one exactly when the id is new |
| Recommendations.TryActionIdempotent | src/pages/Recommendations.tsx:92-98 | trying an activity twice is the same as once |
| Recommendations.BannerStays | src/pages/Recommendations.tsx:240 | once the banner shows, trying more activities keeps it |
| Recommendations.BannerAfterThree | src/pages/Recommendations.tsx:240 | from an empty day, three tries show the banner exactly when the three ids differ |
| Recommendations.ShowBanner | src/pages/Recommendations.tsx:240 | the banner shows exactly when three different activities are completed |
| Recommendations.ThreeDistinct | src/pages/Recommendations.tsx:240 | a set has at least three elements exactly when it holds three different ones |
| Recommendations.RecommendationsPage.constructor | src/pages/Recommendations.tsx:9-10 | both sets start empty |
| Recommendations.RecommendationsPage.ToggleCard | src/pages/Recommendations.tsx:100-110 | the flipped set becomes `Toggled` of the old one; completions are untouched |
| Recommendations.RecommendationsPage.TryAction | src/pages/Recommendations.tsx:92-98 | the completed set becomes `WithCompleted` of the old one; flips are untouched |
| Settings.UpdateSetting | src/pages/Settings.tsx:43-44 | the key holds the new switch position and every other setting is unchanged |
| Settings.SpaceBeforeCapitalsAppend | src/pages/Settings.tsx:47 | the space insertion works piecewise over a concatenation |
| Settings.LabelCons | src/pages/Settings.tsx:47 | a capital becomes a space and its lower-case letter; any other character stays |
| Settings.LabelNoCapitals | src/pages/Settings.tsx:47 | a key without capitals is its own label |
| Settings.LabelTwoWords | src/pages/Settings.tsx:47 | two words joined by a capital are shown as the words separated by a space, all in lower case |
| Settings.LabelLowerCase | src/pages/Settings.tsx:47 | the label has no capital letters |
| Settings.Label | src/pages/Settings.tsx:47 | the label is never shorter than the key |
| Settings.CamelizeLabel | src/pages/Settings.tsx:47 | a key without spaces is recovered from its label |
| Settings.LabelInjective | src/pages/Settings.tsx:47 | two keys without spaces share a label only when they are the same key |
| Settings.LabelExamples | src/pages/Settings.tsx:47 | "dataSharing" is shown as "data sharing" and "wearableSync" as "wearable sync" |
| Settings.ToastText | src/pages/Settings.tsx:47 | the toast is the label followed by " has been enabled." or " has been disabled." |
| Settings.SettingsPage.Mount | src/pages/Settings.tsx:12-41 | the settings start at their defaults and the profile comes from the store |
| Settings.SettingsPage.ChangeSetting | src/pages/Settings.tsx:43-49 | the record becomes `UpdateSetting` of the old one and the toast is `ToastText` |
| Settings.SettingsPage.Logout | src/pages/Settings.tsx:66-67 | the store is emptied |
| DashboardOverview.LoadSleep | src/components/DashboardOverview.tsx:10-14 | a value is kept exactly when the key holds a non-empty string |
| DashboardOverview.SleepLabel | src/components/DashboardOverview.tsx:28 | a non-empty value with "h" appended, otherwise "7.5h" |
| DashboardOverview.Overview.Mount | src/components/DashboardOverview.tsx:10-14 | the tile's value is `LoadSleep` of the store, and the store is not written |
| Journeys.CheckinFeedbackReachesDashboard | src/pages/DailyCheckin.tsx:41-44 | a note with visible text shows on the next dashboard mount, trimmed; a blank note leaves the banner as it was |
| Journeys.CheckinSleepReachesOverview | src/pages/DailyCheckin.tsx:45-48 | the next overview mount shows the submitted sleep text with "h" |
| Journeys.CheckinKeepsReportsAndUser | src/pages/DailyCheckin.tsx:35-49 | a submit leaves what the dashboard loads for reports and profile unchanged |
| Journeys.LogoutRestoresDefaults | src/pages/Settings.tsx:66-67 | after logout every page reads its default: the default profile, no reports, no note, "7.5h" |
| Journeys.CheckinThenDashboard | src/pages/DailyCheckin.tsx:35-49 | after a default check-in the dashboard shows the trimmed note, the tile shows "7", and the reports are the ones stored before |
| Journeys.LogoutThenDashboard | src/pages/Settings.tsx:66-67 | after logout the dashboard mounts with the default user, no reports and no note |

## Left out

- Rendering, Tailwind classes other than the classifiers' return values, routing, dialogs and toasts are not modelled. `ChangeSetting` returns the toast's description as a string.
- `setTimeout` before navigating after logout, and `window.location`: timers and navigation.
- `URL.createObjectURL` and `FileList`: the upload takes the new reports, name and URL, as an input sequence, with URLs as opaque strings.
- `new Date().getHours()`: `Greeting` takes the hour as a parameter.
- Settings dark mode: the `classList` effect on the document is a page side effect, not logic.
- `JSON.parse` leniency: the decoders accept exactly the text `JSON.stringify` writes for these values. That means keys in declaration order, no whitespace, and lower-case `\u00xx` escapes. Any other JSON text the browser would accept is treated like a rejected one. Every value the pages themselves write has that form.
- Storage.LoadUser: nothing in these files writes `user`. The model assumes a stored profile has the `JSON.stringify` form of `{firstName, lastName, email}`. JSON that parses but has another shape, which the page would store as is, is not modelled.
- Dashboard.DashboardPage.Mount: a `reports` value that `JSON.parse` rejects throws out of the state initialiser. The model states this as `LoadReports` answering `Err(MalformedReports)` and does not mount the page then.
- Settings.Label: `toLowerCase` folds all of Unicode; the model lowers ASCII capitals only. The setting keys are ASCII, and only `A`–`Z` get a space in front.
- Dashboard.Initials: `?.[0]` takes a UTF-16 code unit; the model takes the first code point.
- `src/pages/Analytics.tsx` and `src/components/ProgressChart.tsx`: floating-point constants and averages.
- The static pages and components (Landing, Index, Login, StressInsights, DailyTasks, MoodTracker): markup, literal arrays, a timer.
- Concurrent use of the store from several tabs: outside the single-threaded event model.
- DailyCheckin.CheckinForm: the other sliders and fields have no handler logic beyond replacing their value, so only the sleep and notes setters are modelled.
