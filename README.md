# Prayer-Time tracker: a Dafny model of its core

Prayer-Time is a browser app for keeping a daily prayer log. A signed-in user has one record per day in the document store, at `users/{uid}/namazRecords/{dateId}`. Each record holds five flags (fajr, dhuhr, asr, maghrib, isha) and a server `timestamp`. The app has four pages:

- the login and register pages;
- the dashboard, which shows today's prayer times from the Aladhan service and five mark-done buttons;
- the history page, which shows a selected number of days (7 by default) with buttons that toggle a flag.

This project models the logic under the DOM and network calls and proves its properties:

- `Calendar` and `Utils`: the canonical date id (`getFirestoreDateId`). It is the proleptic Gregorian date of a UTC day number, printed in the ISO 8601 complete calendar-date extended format `YYYY-MM-DD` (ISO 8601:2004, section 4.1.2.2), over the years 0000 to 9999. Day 0 is 1970-01-01, as in ECMAScript time values.
- `Records`: the day records (a map from field name to value) and the store. The store is a class whose map field is replaced by a field-wise merge on every `set(..., {merge: true})`. Merge as field-wise override is the semantics the store is taken to have. It is not derived from the store's code.
- `Dashboard`: the one-way mark-done click and the load of today's record onto the buttons.
- `History`: the window of day cards. It is rebuilt from the fetched records, newest first, joined by date id, with all-missed defaults. The module also covers the summary message and the true toggle of one flag.
- `Api`: the mapping of a service reply onto the five time elements, the date and city labels and the message area. It covers the two variants, `fetchAndDisplayPrayerTimes` and `fetchPrayerTimesSimple`, including `formatTime` and the `--:--` fallback.
- `Auth`: the auth-state listener as a class holding `currentUser` and the page. It covers the listener's redirects, the login and register checks, logout and the navigation buttons.

Pages, the store and the panel are classes whose methods change their fields. Each method is specified against pure functions (`MarkDone`, `Toggled`, `Window`, `PageAfter`, `FormatTime`, ...), and the properties are proved as lemmas about those functions. Store, provider and network outcomes are inputs (`Outcome`, `Reply`), and so are the clock (`today` as a UTC day number, `now` as the server's time) and the fetched query result. Three behaviours of the code are worth stating, because a reader of the pages could expect otherwise:

- `hasRecords` is set on every pass of the loop (history.js:96). So "No prayer records found for the selected period." (history.js:100) appears only for an empty window (`days <= 0`), although its wording suggests a window with no stored record (`History.NothingStoredStillReportsLoaded`).
- A dashboard button turns done only after `await docRef.set` resolves (dashboard.js:55-63). A failed write leaves the button as it was.
- The catch of `fetchPrayerTimesSimple` (api.js:98-107) leaves the date label as it was, while `fetchAndDisplayPrayerTimes` clears it (api.js:52).

## Model

| member | source | states |
|---|---|---|
| Calendar.DayNumber | utils.js:22 | the days from 1970-01-01 to a valid date; `FromDayNumber` inverts it and `DayNumberInjective` proves it one-to-one |
| Calendar.DaysBeforeYearClosedForm | utils.js:22 | days before year y equal 365y plus the leap years below y (divisible by 4, less those by 100, plus those by 400) |
| Calendar.EpochOffsetIsDaysBefore1970 | utils.js:22 | 1970-01-01, day 0 of time values, is 719528 days after 0000-01-01 |
| Calendar.MaxDayEndsYear9999 | utils.js:22 | the last modelled day is 9999-12-31, the last day with a four-digit year |
| Calendar.YearsAreOrdered | utils.js:22 | every earlier year ends no later than a later year begins |
| Calendar.MonthsAreOrdered | utils.js:22 | every earlier month ends no later than a later month of the same year begins |
| Calendar.SplitYear | utils.js:22 | the year a day offset falls in, with the day's index inside that year, adding up to the offset |
| Calendar.SplitMonth | utils.js:22 | the month a day of the year falls in, with the day's index inside that month, adding up to the day |
| Calendar.FromDayNumber | utils.js:22 | every day number of years 0000..9999 has a valid date (month 1..12, day 1..days-in-month) whose day number it is |
| Calendar.DayNumberInjective | utils.js:22 | two valid dates with the same day number are the same date |
| Calendar.FromDayNumberOfDayNumber | utils.js:22 | converting a valid date to its day number and back gives the date |
| Calendar.FromDayNumberInjective | utils.js:22 | different day numbers give different dates |
| Calendar.DayOf | utils.js:22 | the UTC day of a time value is the day whose 86400000 ms interval contains it |
| Utils.Padded | utils.js:22 | a number below 10^w printed in exactly w zero-padded digits that read back as the number |
| Utils.Decimal | history.js:102 | a number printed in decimal with no leading zero, reading back as the number |
| Utils.ParseDateId | utils.js:21-23 | a string parses as a date exactly when it has the `YYYY-MM-DD` shape |
| Utils.FormatDate | utils.js:22 | a valid date prints with the `YYYY-MM-DD` shape and parses back to itself |
| Utils.DateId | utils.js:21-23 | the id of a day has the shape: 10 characters, `-` at 4 and 7, digits elsewhere; it parses to a valid date (month 01..12, day in the month) of that day |
| Utils.DateIdOfTime | utils.js:21-23 | the id of a time value has the `YYYY-MM-DD` shape |
| Utils.SameDaySameId | utils.js:22 | two time values on the same UTC day get the same id, the id of that day |
| Utils.DateIdInjective | utils.js:22 | two days have the same id if and only if they are the same day |
| Utils.ParseDateIdOfDateId | utils.js:22 | parsing the id of a day gives that day's year, month and day |
| Utils.DifferentDayDifferentId | utils.js:22 | time values on different UTC days get different ids |
| Utils.UpperAscii | dashboard.js:66 | lower-case ASCII letters map to upper case, every other character to itself |
| Utils.Capitalize | dashboard.js:66 | the first character upper-cased, the rest unchanged, the length kept |
| Records.Truthy | dashboard.js:108 | JavaScript truthiness of a stored field: a flag is its boolean, a timestamp object is true |
| Records.FlagOf | dashboard.js:108 | `doc[name] \|\| false`: false for an absent field, the stored boolean for a flag |
| Records.Defaults | dashboard.js:93-99 | exactly the five prayer fields, all false |
| Records.DefaultsAllMissed | history.js:66-72 | every prayer reads as not done in the defaults |
| Records.Merge | dashboard.js:55-59 | merge write: the keys of both, every patch field overriding, every other stored field kept |
| Records.Snapshot | dashboard.js:44-48 | a read finds a record exactly when one is stored under the ref, and finds that record |
| Records.DataOr | dashboard.js:45-48 | the stored data, or `{}` when the snapshot does not exist |
| Records.RecordStore.Get | dashboard.js:44 | the point read returns the stored record iff one is stored, and changes nothing |
| Records.RecordStore.SetMerge | dashboard.js:55-59 | only the record at the ref changes; it becomes the stored (or empty) record merged with the patch |
| Dashboard.MarkDonePatch | dashboard.js:55-59 | the patch `{...currentPrayers, [name]: true, timestamp}`, a later key winning; `MarkDoneSetsDone` and `MarkDoneKeepsOtherFields` state its effect |
| Dashboard.MarkDone | dashboard.js:44-59 | today's record after a successful click: the read record merged with the patch, as the three `MarkDone...` lemmas characterise it |
| Dashboard.MarkDoneSetsDone | dashboard.js:51-59 | mark-done stores true for the prayer whatever the read value was, and the server timestamp |
| Dashboard.MarkDoneKeepsOtherFields | dashboard.js:44-59 | every other field of today's record keeps its presence and value |
| Dashboard.MarkDoneIdempotent | dashboard.js:52-59 | marking a prayer done twice gives the record of marking it once, with the second timestamp |
| Dashboard.LoadedPrayers | dashboard.js:93-103 | the five all-missed defaults with the stored record assigned over them; `LoadedShowsStored` proves the defaults change nothing a button shows |
| Dashboard.ButtonStates | dashboard.js:105-111 | one done bit per button, `prayers[name] \|\| false` of the button's own prayer |
| Dashboard.LoadedShowsStored | dashboard.js:93-112 | after the load each button shows exactly the stored flag, and missed when no record is stored |
| Dashboard.DashboardPage.Click | dashboard.js:28-71 | no user: no write, an error message; a failed read or write: no write, the button unchanged, the error message; a success: the store's record for today becomes the mark-done merge, only the clicked button turns done, and the success message |
| Dashboard.DashboardPage.ShowStates | dashboard.js:105-111 | every button shows `prayers[name] \|\| false` for its own prayer name, nothing else changing |
| Dashboard.DashboardPage.Load | dashboard.js:76-119 | no user: nothing changes; else the e-mail is shown; a failed read: the buttons unchanged, an error; a success: each button is `prayers[name] \|\| false` of the defaults overlaid with the record |
| History.FetchLimit | history.js:48 | the cap `limit(days * 2)` on the documents a successful query delivers, none when `days <= 0` |
| History.IndexRecords | history.js:51-55 | the `records` object: every fetched document under its id, a later one winning; `IndexedIds` and `IndexedValue` characterise it |
| History.IndexedIds | history.js:51-55 | an id is indexed exactly when some fetched document has that id |
| History.IndexedValue | history.js:51-55 | with distinct ids, each fetched document is found under its own id |
| History.CardFlags | history.js:80-93 | one done bit per prayer in the order fajr, dhuhr, asr, maghrib, isha, `prayerData[prayer]` read as a flag |
| History.CardFor | history.js:61-72 | a card carries its day, the id of that day, and five flags |
| History.WindowDay | history.js:60-62 | the day of pass i, `date.setDate(now.getDate() - i)` taken on UTC day numbers: today minus i |
| History.Window | history.js:59 | the window has max(days, 0) cards, one per pass of the loop |
| History.WindowCard | history.js:60-72 | card i of the window is the card of day today minus i, a day of years 0000..9999 |
| History.IndexFetched | history.js:51-55 | the `forEach` indexes the fetched documents by id: exactly the map whose keys and values `IndexedIds` and `IndexedValue` describe |
| History.HistoryPage.ShowWindow | history.js:58-97 | the cleared list receives exactly the cards of the window, newest first, and `hasRecords` ends true iff `days > 0` |
| History.WindowStep | history.js:59-97 | one more pass of the loop appends the card of the next older day |
| History.WindowShape | history.js:60-63 | exactly `days` cards (none if `days <= 0`), card i being today minus i days under its id, each with five flags |
| History.WindowIdsDistinct | history.js:60-63 | no two cards of the window share an id |
| History.WindowUnfetchedAllMissed | history.js:66-72 | a day whose id is among no fetched document shows all five prayers missed, whatever the store holds outside the fetched subset |
| History.WindowFetchedFlags | history.js:66-87 | a fetched document supplies the flags of its day's card; a prayer field it lacks shows missed |
| History.SummaryNotice | history.js:99-103 | "no records" if and only if `days <= 0`; otherwise the success summary |
| History.NothingStoredStillReportsLoaded | history.js:59-103 | with nothing stored, a 7-day window shows seven all-missed cards and still reports success |
| History.TogglePatch | history.js:137-154 | the patch `{[name]: !currentPrayers[name], timestamp}` and nothing else |
| History.Toggled | history.js:131-154 | the day's record after a successful toggle write; `ToggleNegates`, `ToggleKeepsOtherFields` and `ToggleInvolution` characterise it |
| History.ToggleNegates | history.js:132-138 | the toggle stores the negation of the stored flag, absent counting as false |
| History.ToggleKeepsOtherFields | history.js:152-155 | the toggle changes only that prayer's field and the timestamp |
| History.ToggleInvolution | history.js:132-155 | toggling twice restores the flag; the record is the original with that flag as a boolean and the later timestamp |
| History.HistoryPage.Load | history.js:32-115 | no user: list unchanged, an error; a failed query: the loading text and an error; a success: the cards of the window over the indexed fetched records, and the summary message |
| History.HistoryPage.Toggle | history.js:118-162 | no user: no write, an error; a failed read: nothing changes but the message; else the button flips at once from the read value; a successful write stores the toggled record at that day and changes no other record; a failed one writes nothing and leaves the button flipped |
| Api.FormatTime | api.js:85 | `time.split(' ')[0]`, the characters before the first space; `FormatTimeSpec` pins it down |
| Api.FormatTimeSpec | api.js:85 | the formatted time is a prefix of the input with no space, followed by a space when shorter than the input |
| Api.FormatTimeWithoutSpace | api.js:85 | a time without a space is shown unchanged |
| Api.FormatTimeIdempotent | api.js:85 | formatting a formatted time changes nothing |
| Api.HasTimings | api.js:78-80 | the structure check: code 200, a `data` object and a `timings` object |
| Api.SimpleSucceeds | api.js:78-94 | the try block of `fetchPrayerTimesSimple` completes: the structure check passes, all five times are defined (formatTime of undefined throws), and a `date` object exists when there is a date element |
| Api.DisplaySucceeds | api.js:30-43 | the try block of `fetchAndDisplayPrayerTimes` completes: code 200, and `data`, `timings` and, when there is a date element, `date` exist to be read |
| Api.TextOf | api.js:35-39 | the text an element shows after `textContent = value`: the string, or the empty string for undefined |
| Api.SimpleDateLabel | api.js:93 | the readable date when it is a non-empty string, else the fallback date string |
| Api.PrayerPanel.ShowFormatted | api.js:87-91 | one assignment throws iff the element is missing or the time undefined; otherwise that element shows the formatted time |
| Api.PrayerPanel.ShowPlaceholder | api.js:101-105 | one assignment throws iff the element is missing; otherwise that element shows `--:--` |
| Api.PrayerPanel.ShowTimings | api.js:87-91 | the five assignments complete iff all elements exist and all times are defined; element i shows its formatted time iff it and every earlier assignment succeed, and otherwise keeps its text |
| Api.PrayerPanel.ShowFallback | api.js:101-105 | the five placeholders complete iff all elements exist; every element before the first missing one shows `--:--`, and that one and every later one keep their text |
| Api.PrayerPanel.FetchAndDisplay | api.js:6-55 | a missing time element changes nothing; code 200 with timings copies the times verbatim plus the city and date labels; any failure shows five `--:--`, an empty date label and the error message |
| Api.PrayerPanel.FetchSimple | api.js:58-109 | a missing fajr element rejects with nothing changed; code 200 with data and timings shows the formatted times, the date label and the city and resolves with the body; with all elements present any other reply shows five `--:--`, leaves the date and city labels and rejects with the fetch error, the structure error or a TypeError; with fajr present and a later element missing it rejects with a TypeError, the elements before the first missing one show `--:--` and that one and every later one keep their text |
| Auth.Contains | auth.js:62-63 | `path.includes(sub)`; `ContainsMeansOccurs` proves it holds iff `sub` occurs at some position |
| Auth.ContainsMeansOccurs | auth.js:62-63 | `path.includes(sub)` holds exactly when `sub` occurs at some position of `path` |
| Auth.PageAfter | auth.js:52-75 | signed in: to the dashboard iff the path contains login.html or register.html; signed out: to login iff it contains dashboard.html or history.html; otherwise the page stays |
| Auth.DashboardStaysSignedIn | auth.js:61-65 | the dashboard is not a page a signed-in user is sent away from |
| Auth.LoginStaysSignedOut | auth.js:70-74 | the login page is not a page a signed-out user is sent away from |
| Auth.RedirectsOnce | auth.js:52-75 | a repeated notification does not redirect again |
| Auth.ListenerLeavesNoForbiddenPage | auth.js:52-75 | after the listener a signed-in user is on no login/register page and a signed-out user on no dashboard/history page |
| Auth.Session.OnAuthStateChanged | auth.js:51-76 | `currentUser` becomes the notified user (or null), the page becomes the redirect target, and the e-mail shows for a user on a page with the display |
| Auth.Session.Logout | auth.js:131-141 | a successful sign-out clears the user and redirects as the listener does; a failed one changes only the message area, with "Logout error: ..." |
| Auth.Session.Navigate | auth.js:144-154 | the nav buttons go to dashboard.html or history.html and change nothing else |
| Auth.LoginRejection | auth.js:89-92 | login reaches the provider iff both fields are non-empty, else "Please enter both email and password." |
| Auth.RegisterRejection | auth.js:110-117 | register reaches the provider iff both fields are non-empty and the password has at least 6 characters; the empty check comes first |
| Auth.RegisterStricterThanLogin | auth.js:89-117 | a pair the register form accepts is one the login form accepts |
| Auth.CredentialForm.SubmitLogin | auth.js:85-102 | the provider is called iff the check passes; on success both fields are cleared with the success message, on failure they are kept with the provider's message |
| Auth.CredentialForm.SubmitRegister | auth.js:106-127 | the provider is called iff both checks pass; success clears both fields, failure keeps them and shows the provider's message |

## Left out

- I/O: the network requests (`fetch`, `response.json()`), the identity provider's `signIn`, `createUser` and `signOut`, and the store's `get`, `set` and query. Only their outcomes are modelled, as inputs.
- The store query `orderBy('timestamp', 'desc').limit(days * 2)`: its result is an input of at most `2 × days` documents, and which documents the order selects is not modelled.
- `serverTimestamp()`: a timestamp is an opaque value chosen by the caller.
- The 5-second auto-clear of `showMessage` and the race between overlapping notices: timer-driven and concurrent.
- `getFormattedDate` (dashboard.js:85, history.js:64) and `toDateString` (api.js:93): locale formatting by the browser. The dashboard's date span and the card headings are not modelled; the fallback date string is the input `today` of `FetchSimple`.
- Time zones: history.js:62 steps the local date with `setDate` while the id is taken in UTC; every date here is a UTC day number, so local-midnight effects are not modelled. Because `setDate` keeps the local time of day, across a daylight-saving change two passes of the source's loop can get the same UTC id (America/New_York at 19:30 on 2024-03-11: i=1 gives 2024-03-10 23:30Z and i=2 gives 2024-03-10 00:30Z, both "2024-03-10"); `History.WindowIdsDistinct` holds of the UTC-day model only.
- `toISOString` for years outside 0000..9999 (six-digit signed years and the range error beyond), which the requires `InRange` excludes.
- `parseInt` of the selected window size: `days` is an integer. The summary prints it in decimal, while the source prints the select's raw text.
- DOM construction: `innerHTML` templating, button classes and glyphs beyond a done/missed bit, card headings, and `app.js`, which only calls the init functions.
- Lost updates between overlapping clicks and writes: these are asynchronous races, not sequential logic.
- The wording of the engine's TypeError messages: a failure is `TypeError` without text.
- Utils.UpperAscii, Utils.Capitalize: upper-cases ASCII letters only. `toUpperCase` maps every Unicode letter and may change the length.
- Auth.RegisterRejection: `password.length` counts UTF-16 code units; here it is the number of characters.
- Auth.Session.OnAuthStateChanged: `window.location.href = 'x.html'` resolves against the current directory; here the page becomes the bare target name.
- Page loads: `window.location.href = ...` (auth.js:64, 73) starts loading a new page whose module state starts afresh (`currentUser = null`, auth.js:6); the `Session` keeps its fields and only its page changes.
- The default arguments `city = 'Karachi', country = 'Pakistan'` of `fetchAndDisplayPrayerTimes` (api.js:6): the city is a parameter and the country only enters the request URL, which is not modelled.
- The `console.log` and `console.error` calls (api.js:7, 20, 28, 45, 70, 96, 99; dashboard.js:68, 116): they only write to the browser console.
- `getDOMElements` (auth.js:9-44) and the page checks of the other init functions: which elements a page has is given by the `has...` flags and the `Element` values of the classes.
