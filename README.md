# Thread comments and settings session: a Dafny model

This project models the logic inside two screens of a music-community forum
client:

- **The thread-comment component** (`components/ThreadComment.tsx`). It computes
  the relative-time label shown next to a comment ("N日前" = N days ago,
  "N時間前" = N hours ago, "N分前" = N minutes ago, "たった今" = just now). It
  resolves the comment a reply points to, by a linear search of the loaded
  comments. It shows `likes || 0` as the like count. Module `ThreadComment`,
  written as pure functions and lemmas.
- **The settings screen** (`app/settings.tsx`). It holds three boolean
  preferences (`darkMode`, `notifications`, `fabEnabled`) and an `isSaving`
  flag. It merges the user's remote settings document into the local values on
  load, key by key with `??`. Every switch sets its key locally at once, then
  sends a one-key partial write. A failed write only raises an alert. Module
  `Settings`, class `SettingsSession`. A ghost `trace` records, in order, the
  handlers' local sets, the local update a load makes (`ProfileUpdated`), the
  remote calls, the flag changes and the alerts.

Modelling decisions:

- The clock is a parameter. `RelativeTime(now, createdAt)` takes both instants
  as integer epoch milliseconds. Dafny's `/` with a positive divisor is floor
  division, the same as `Math.floor(a / b)`, negative differences included.
- The remote store is a parameter. `LoadOutcome` says whether the read returned
  a document, returned `null`, or threw. `WriteOutcome` says whether the write
  succeeded or threw. The caller chooses the outcome, so every method is proved
  for every possible outcome.
- JavaScript truthiness is written out. An empty `replyToId` counts as absent,
  and so does an empty `user.id`. `LikeCount.Missing` stands for an
  `undefined` or `NaN` like count.
- `saveSettings` is fired without `await` from the handlers. With concurrency
  left out, a handler's save runs to completion before the handler returns.

Two plausible intended behaviours differ from the code, and the model follows
the code:

- Load could merge remote keys over built-in defaults. The code
  (`app/settings.tsx:60-62`) falls back to the current local values.
- Write-back could be debounced. The code writes once per change, immediately.

## Model

| member | source | states |
|---|---|---|
| `ThreadComment.RelativeTime` | components/ThreadComment.tsx:37-55 | The label for any difference satisfies `Denotes`: its count is the number of whole units in the difference, its unit is the coarsest one reached, and a difference under a minute is "just now", including a negative (future) difference |
| `ThreadComment.NestedFloorsCollapse` | components/ThreadComment.tsx:41-44 | The chained floors equal single floor divisions by 60000, 3600000 and 86400000 ms |
| `ThreadComment.DenotesUnique` | components/ThreadComment.tsx:46-54 | At most one label denotes a difference, so exactly one branch applies |
| `ThreadComment.RelativeTimeCharacterised` | components/ThreadComment.tsx:37-55 | The computed label is `l` if and only if `l` denotes `now - createdAt` |
| `ThreadComment.RelativeTimeBands` | components/ThreadComment.tsx:41-54 | Under 60000 ms gives "just now". From 60000 up to 3600000 gives minutes = diff div 60000, in 1..59. From 3600000 up to 86400000 gives hours = diff div 3600000, in 1..23. From 86400000 on gives days = diff div 86400000, at least 1. Each range holds in both directions |
| `ThreadComment.RelativeTimeMonotone` | components/ThreadComment.tsx:41-54 | For a fixed creation time, a later `now` never shows a smaller elapsed amount |
| `ThreadComment.Decimal` | components/ThreadComment.tsx:47-51 | The `${n}` step: the text of a count is non-empty, made of decimal digits only, and has no leading zero (it starts with '0' exactly for 0). `DecimalRoundTrip` states that it reads back as the count |
| `ThreadComment.DecimalRoundTrip` | components/ThreadComment.tsx:47-51 | The decimal text the template literals give a count reads back as that count |
| `ThreadComment.Render` | components/ThreadComment.tsx:46-54 | The template literals: the text is "たった今" exactly for the just-now label, and every other label's text starts with a digit. `RenderRoundTrip` states that the text determines the label; with `ParseLabelInjective`, each label has exactly one text |
| `ThreadComment.CanonicalDecimal` | components/ThreadComment.tsx:47-51 | Any digit string without a leading zero is the decimal text of the number it reads as, so `${n}` has exactly one text per count |
| `ThreadComment.ParseLabelInjective` | components/ThreadComment.tsx:46-54 | Every text that reads as a label is that label's rendered text: zero-padded or otherwise different spellings read as no label |
| `ThreadComment.RenderRoundTrip` | components/ThreadComment.tsx:46-54 | The displayed text determines the label: parsing the rendered text gives the label back |
| `ThreadComment.FindById` | components/ThreadComment.tsx:77 | The search returns none exactly when no comment has the id. Otherwise it returns the comment at the first position with that id |
| `ThreadComment.ReplyTarget` | components/ThreadComment.tsx:76-78 | An absent or empty `replyToId` gives none. A result is a loaded comment with the referenced id. With a non-empty id, the result is none exactly when no comment matches, and then the banner is omitted |
| `ThreadComment.ReplyTargetIsFirst` | components/ThreadComment.tsx:77 | When several comments share the id, the target is the first one in list order |
| `ThreadComment.DisplayedLikes` | components/ThreadComment.tsx:142 | A numeric like count is shown as is, zero included. A missing or `NaN` count is shown as 0 |
| `Settings.With` | app/settings.tsx:90-105 | Setting one key gives that key the new value and leaves the other two keys unchanged |
| `Settings.Merge` | app/settings.tsx:59-63 | The `??` merge: a document with no keys leaves the local values as they are, and a document with all three keys replaces them all. `MergePerKey` states the key-by-key rule |
| `Settings.MergePerKey` | app/settings.tsx:59-63 | After a merge, each key holds the remote value when the document has one, and the previous local value otherwise |
| `Settings.MergeIdempotent` | app/settings.tsx:59-63 | Merging the same document twice is the same as merging it once |
| `Settings.SingleKey` | app/settings.tsx:79 | The partial document `{ [key]: value }` carries the saved key with its value and no other key |
| `Settings.MergeSingleKeyIsChange` | app/settings.tsx:57-63 | Merging a stored document that holds only the one key a save writes changes that key only, and the sibling keys keep their local values. It says nothing about a stored document that also holds sibling keys from earlier saves |
| `Settings.UserIdOf` | app/settings.tsx:53 | A remote call is made for a user id exactly when there is a user and the id is non-empty |
| `Settings.SaveRequestsAppend` | app/settings.tsx:79 | The save requests of two consecutive stretches of the trace are those of the first followed by those of the second |
| `Settings.SaveEvents` | app/settings.tsx:74-87 | Without a user id a save produces no events. Otherwise the saving flag is raised first and lowered last, success or failure. An alert is raised exactly when the write failed. Every request carries the user id, key and value. No local value is changed |
| `Settings.ChangeEvents` | app/settings.tsx:90-105 | A change starts with its one local set. Every save request comes after that set and carries the key and value set. `ChangeSaveRequests` states that there is exactly one request with a user id and none without one |
| `Settings.ChangeSaveRequests` | app/settings.tsx:90-105 | One change issues exactly one save request when the user has an id, with the key and value just set. Without an id it issues none |
| `Settings.SettingsSession.constructor` | app/settings.tsx:45-48 | The session starts with the given user and preferences, not saving, with an empty trace |
| `Settings.SettingsSession.LoadUserSettings` | app/settings.tsx:51-71 | Without a user id nothing is read and nothing changes. A fetched document merges into the local values, and the trace records the read and the update. A `null` document or a failed read leaves the values unchanged, and the trace records only the read. The user and the saving flag are untouched |
| `Settings.SettingsSession.UserChanged` | app/settings.tsx:51-71 | The effect keyed on `user`: the session takes the new user and then loads that user's settings, with the same outcomes as `LoadUserSettings` |
| `Settings.SettingsSession.SaveSettings` | app/settings.tsx:74-87 | The local values are unchanged. The trace grows by exactly the save's events. With a user id, `isSaving` is false afterwards. Without one it is untouched |
| `Settings.SettingsSession.Change` | app/settings.tsx:90-105 | The key is set locally and is not reverted when the save fails. The trace grows by the local set followed by the save's events |
| `Settings.SettingsSession.HandleDarkModeChange` | app/settings.tsx:90-93 | `darkMode` takes the new value, the other two keys are unchanged, and at most one save of `darkMode` follows |
| `Settings.SettingsSession.HandleNotificationsChange` | app/settings.tsx:96-99 | `notifications` takes the new value, the other two keys are unchanged, and at most one save of `notifications` follows |
| `Settings.SettingsSession.HandleFabEnabledChange` | app/settings.tsx:102-105 | `fabEnabled` takes the new value, the other two keys are unchanged, and at most one save of `fabEnabled` follows |

## Left out

- Rendering and styling: the JSX, styles, icons, badges, avatar, image and reply-banner markup in both files. The banner is represented only by whether `ReplyTarget` is some or none.
- The static table of setting sections and its placeholder alert items. It is constant UI data.
- Logout (`signOut` and navigation). This is authentication and routing I/O.
- The internals of `userService.getUserSettings` / `updateUserSettings` and the Firebase context. The two service calls are abstract calls that succeed or fail.
- The user context's `updateProfile` and setters. They are taken to succeed and to assign exactly their keys.
- The source of user changes. The user changes only through `UserChanged`, which stands for the effect re-running when `user` changes. Any sign-in flow driving it is not part of this model.
- The wall clock (`new Date()`). It is the parameter `now`.
- Console logging. It has no effect on state.
- Overlapping asynchronous calls: saves that overlap each other (and their effect on `isSaving`), or a change made while a load is pending, which that load's merge can overwrite. This is concurrency.
- The stale closure in the load effect. It reads the local values captured when `user` last changed. The sequential model uses the current values.
- The unused `date-fns` imports.
- Like toggling, comment submission and thread loading. They live in files that are not part of this model.
