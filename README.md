# Sitani site core in Dafny

A model of the stateful and string-handling core of the Sitani construction-company site, with proofs about it. The site has a public home page, a public announcements page, and an admin dashboard with three screens: company information, announcements and achievements.

Each React page becomes a Dafny `class`. Its `useState` variables become fields. Each event handler becomes a method that says, in `ensures`, the whole new state (`State() == old(State()).(…)`). The logic the handlers compute by spreads, `split`/`map`/`filter` chains and `FormData.append` sequences is written as functions. Lemmas state what the pages promise about that logic.

- `wrappers.dfy`: `Option`.
- `backend.dfy`: the shapes the server returns.
  - An announcement record.
  - The outcome of a call: `Ok(value)`, or `Threw(error)` with its message and `response.data.error`.
- `strings.dfy`: the JavaScript string operations the pages use.
  - `trim`, `split` with one-character separators, `join`, `includes`, `startsWith`.
  - The date part before `T`.
  - Decimal digits, `||` on an optional string, `String(undefined)`.
- `company_info.dfy`: the company-information dashboard.
  - The nested record, and its leaves addressed by input name.
  - The name parser `handleInputChange` implies.
  - The bounded phone list.
  - The multipart bodies of a save and of a restore from history, as ordered `(key, value)` lists, read back with `getAll`.
  - The component.
- `news.dfy`: the announcements dashboard.
  - A name-indexed form.
  - The payload transform.
  - Create-or-update dispatch, error-message selection, edit normalisation and priority labels.
  - The component.
- `achievements.dfy`: the achievements dashboard.
  - Tag parsing and its inverse join.
  - Edit and reset drafts.
  - The `dateAchieved`/`dateAcheived` key mismatch, modelled as written.
  - Response normalisation, save and delete targets.
  - The component.
- `announcement_page.dfy`: the public announcements page.
  - The three-outcome fetch with its demo fallback.
  - The colour and label of a priority.
- `home.dfy`: the hero carousel and the years of experience.

Things the code does that are easy to miss, each stated as a lemma:

- The public page and the dashboard label priorities in opposite directions (`AnnouncementPage.LabelsDisagreeWithDashboard`).
- The achievements date input never reaches the saved date (`Achievements.DateInputMissesPayloadDate`, `Achievements.InitialDraftHasNoPayloadDate`).
- A restore never sends the e-mail app password (`CompanyInfo.RestoreOmitsSecretAndImage`).

## Model

| member | source | states |
|---|---|---|
| CompanyInfo.Update | dashboard/pages/CompanyInfo.jsx:96-159 | the spread update sets the addressed leaf, leaves every other leaf as it was and keeps the phone count |
| CompanyInfo.LeavesDetermineInfo | dashboard/pages/CompanyInfo.jsx:7-29 | records that agree on every leaf are equal, so "every other leaf unchanged" means "nothing else changed" |
| CompanyInfo.ParseName | dashboard/pages/CompanyInfo.jsx:99-121 | an input name on the about tab only addresses the about half, and on the contact tab only the contact half |
| CompanyInfo.ParseContactName | dashboard/pages/CompanyInfo.jsx:122-158 | a contact-tab name (hours, `phoneNumbers[i]` or a plain field) addresses only a contact leaf; the round-trip lemmas below fix which one |
| CompanyInfo.NameRoundTrip | dashboard/pages/CompanyInfo.jsx:100-156 | every leaf's name, rendered as an input or not (the form has no `imageUrl` input), typed on that leaf's tab, is parsed back to exactly that leaf (location, hours, phone index, plain field) |
| CompanyInfo.LocationNameRoundTrip | dashboard/pages/CompanyInfo.jsx:100-111 | `location.<f>` addresses location field f |
| CompanyInfo.HoursNameRoundTrip | dashboard/pages/CompanyInfo.jsx:122-136 | `availableHours.<period>.<t>` addresses that one time |
| CompanyInfo.PhoneNameRoundTrip | dashboard/pages/CompanyInfo.jsx:137-138 | `phoneNumbers[i]` addresses phone i, read from its digits |
| CompanyInfo.InputChange | dashboard/pages/CompanyInfo.jsx:96-159 | on the about tab the contact half is untouched, on the contact tab the about half; the phone count is kept |
| CompanyInfo.EditRenderedInput | dashboard/pages/CompanyInfo.jsx:100-156 | typing into a leaf's input sets that leaf and no other |
| CompanyInfo.EditPhoneNumber | dashboard/pages/CompanyInfo.jsx:137-148 | editing `phoneNumbers[i]` for i inside the list replaces exactly entry i |
| CompanyInfo.AddPhone | dashboard/pages/CompanyInfo.jsx:169-179 | appends `""` below three numbers, changes nothing at three, never touches another field |
| CompanyInfo.Without | dashboard/pages/CompanyInfo.jsx:183-185 | the filter drops exactly the entry at the index and keeps the rest in order |
| CompanyInfo.RemovePhone | dashboard/pages/CompanyInfo.jsx:181-194 | drops the entry above one number, changes nothing at one |
| CompanyInfo.PhoneBoundsKept | dashboard/pages/CompanyInfo.jsx:169-194 | from 1 to 3 numbers, adding, removing and editing keep 1 to 3 |
| CompanyInfo.ValuesOfAppend | dashboard/pages/CompanyInfo.jsx:199-237 | `getAll` on a body built in two parts is the first part's values followed by the second's |
| CompanyInfo.ValuesOfDistinct | dashboard/pages/CompanyInfo.jsx:199-237 | in a body with no repeated key, `getAll` of an entry's key is that entry's value alone |
| CompanyInfo.PhoneEntriesValues | dashboard/pages/CompanyInfo.jsx:218-220 | the `forEach` puts every phone number under `phoneNumbers`, in list order, and nothing under another key |
| CompanyInfo.AboutReadsBack | dashboard/pages/CompanyInfo.jsx:201-208 | an about body gives back mission, vision, title, address, city, country and timezone, once each |
| CompanyInfo.AboutOnlyAbout | dashboard/pages/CompanyInfo.jsx:201-211 | an about body carries the image exactly when a file is picked, and no contact field |
| CompanyInfo.ContactSplits | dashboard/pages/CompanyInfo.jsx:213-236 | the phone entries sit between the e-mail fields and the hours without disturbing either |
| CompanyInfo.ContactReadsBack | dashboard/pages/CompanyInfo.jsx:213-236 | a contact body gives back e-mail, password and the four times once each, and the phone numbers in order |
| CompanyInfo.ContactOnlyContact | dashboard/pages/CompanyInfo.jsx:212-237 | a contact body carries no about field and no image |
| CompanyInfo.SubmitReadsBack | dashboard/pages/CompanyInfo.jsx:201-237 | a save posts the active tab's half and nothing of the other half |
| CompanyInfo.AppendPhones | dashboard/pages/CompanyInfo.jsx:218-220 | the loop appends one `phoneNumbers` entry per number, in order |
| CompanyInfo.BuildSubmitBody | dashboard/pages/CompanyInfo.jsx:199-237 | the appends of a save produce exactly the specified body |
| CompanyInfo.RestoreDefaults | dashboard/pages/CompanyInfo.jsx:276-297 | a contact entry with nothing recorded restores e-mail `""`, phones `[""]` and hours 09:00, 17:00, `""`, `""` |
| CompanyInfo.RestoreOmitsSecretAndImage | dashboard/pages/CompanyInfo.jsx:255-297 | a restore body never holds the e-mail app password or an image |
| CompanyInfo.RestoreSnapshot | dashboard/pages/CompanyInfo.jsx:255-297 | restoring a complete record sends the same fields a save of each tab would, except the password and image, and with an empty weekday time replaced by its default |
| CompanyInfo.AppendRestoredAbout | dashboard/pages/CompanyInfo.jsx:257-274 | the about appends of a restore, in order |
| CompanyInfo.AppendRestoredContact | dashboard/pages/CompanyInfo.jsx:276-297 | the contact appends of a restore, with the phone `forEach` |
| CompanyInfo.BuildRestoreBody | dashboard/pages/CompanyInfo.jsx:255-297 | the appends of a restore produce exactly the specified body |
| CompanyInfo.CompanyInfoDashboard.constructor | dashboard/pages/CompanyInfo.jsx:7-38 | the initial record and flags |
| CompanyInfo.CompanyInfoDashboard.FetchCompanyInfo | dashboard/pages/CompanyInfo.jsx:45-85 | a missing half becomes its initial value; a stored image sets the preview; the error is the message on failure; loading ends on both paths |
| CompanyInfo.CompanyInfoDashboard.FetchHistory | dashboard/pages/CompanyInfo.jsx:87-94 | a fetched history replaces the list; a failure changes nothing |
| CompanyInfo.CompanyInfoDashboard.HandleInputChange | dashboard/pages/CompanyInfo.jsx:96-159 | the record becomes `InputChange` of the active tab; nothing else changes |
| CompanyInfo.CompanyInfoDashboard.SelectImage | dashboard/pages/CompanyInfo.jsx:161-167 | a picked file is kept for the next save; an empty selection changes nothing |
| CompanyInfo.CompanyInfoDashboard.AddPhoneNumber | dashboard/pages/CompanyInfo.jsx:169-179 | the record becomes `AddPhone` of it |
| CompanyInfo.CompanyInfoDashboard.RemovePhoneNumber | dashboard/pages/CompanyInfo.jsx:181-194 | the record becomes `RemovePhone` of it |
| CompanyInfo.CompanyInfoDashboard.SetActiveTab | dashboard/pages/CompanyInfo.jsx:474-484 | only the tab changes |
| CompanyInfo.CompanyInfoDashboard.ToggleHistory | dashboard/pages/CompanyInfo.jsx:386 | only the panel flag flips |
| CompanyInfo.CompanyInfoDashboard.HandleSubmit | dashboard/pages/CompanyInfo.jsx:196-250 | posts the active half's body; on success drops the image, leaves edit mode and refetches; on failure only the error changes |
| CompanyInfo.CompanyInfoDashboard.RestoreFromHistory | dashboard/pages/CompanyInfo.jsx:252-308 | nothing happens unless confirmed; then sends the restore body; on success closes the panel and refetches, on failure sets the error |
| CompanyInfo.CompanyInfoDashboard.DeleteHistoryItem | dashboard/pages/CompanyInfo.jsx:310-319 | nothing happens unless confirmed; then deletes that entry and refetches on success, sets the error on failure |
| CompanyInfo.CompanyInfoDashboard.ToggleEditMode | dashboard/pages/CompanyInfo.jsx:321-329 | flips edit mode; entering it drops the picked image and shows the stored one |
| News.ApplyInput | dashboard/pages/News.jsx:37-43 | the named field gets `checked` for a checkbox, else `value`; every other field is unchanged |
| News.EmptyForm | dashboard/pages/News.jsx:11-18 | the fresh form: empty title, content and expiry, today's date, priority 0, active |
| News.ToNumber | dashboard/pages/News.jsx:56 | `Number()` of a number, a flag, `undefined` (NaN) and a digit string |
| News.SelectedNumber | dashboard/pages/News.jsx:56 | the text of a select option reads back as that option's number |
| News.PayloadOf | dashboard/pages/News.jsx:51-58 | title, content, dates and flag are copied, expiry is null exactly when the field is falsy, priority is `Number()` of the field |
| News.EmptyFormPayload | dashboard/pages/News.jsx:51-58 | a fresh form saves an active, priority-0 announcement with no expiry |
| News.SelectPriorityPayload | dashboard/pages/News.jsx:37-58 | choosing priority n in the select makes the payload carry n |
| News.ClearExpiryPayload | dashboard/pages/News.jsx:55 | clearing the expiry input makes the payload send null |
| News.RequestFor | dashboard/pages/News.jsx:61-73 | an update of the current announcement's id when one is being edited, else a create |
| News.SaveErrorText | dashboard/pages/News.jsx:92-96 | the server's error text, else the exception message, else "Failed to save announcement"; never empty |
| News.EditForm | dashboard/pages/News.jsx:102-113 | dates cut at `T`, today for a missing publish date, `""` for a missing expiry, 0 for a missing priority |
| News.EditThenSave | dashboard/pages/News.jsx:51-58 | opening an announcement and saving it unchanged sends back its title, content and flag, a missing priority as 0, its publish date cut at `T` (today when it had none), and its expiry cut at `T`, or no expiry exactly when it had none |
| News.Find | dashboard/pages/News.jsx:426 | `find` returns the first option in the list that matches, or none when no option matches |
| News.PriorityLabel | dashboard/pages/News.jsx:426 | the badge shows "Unknown" exactly when no option matches, else the caption of a matching option |
| News.PriorityLabels | dashboard/pages/News.jsx:135-139 | 0 is Low, 1 Medium, 2 High and anything else Unknown, each in both directions |
| News.AnnouncementsDashboard.constructor | dashboard/pages/News.jsx:8-19 | empty list, closed modal, fresh form, no error |
| News.AnnouncementsDashboard.LoadAnnouncements | dashboard/pages/News.jsx:22-35 | the fetched list, or "Failed to load announcements" |
| News.AnnouncementsDashboard.HandleInputChange | dashboard/pages/News.jsx:37-43 | the form becomes `ApplyInput` of it; nothing else changes |
| News.AnnouncementsDashboard.HandleSubmit | dashboard/pages/News.jsx:45-98 | sends the payload to the create or update target; after save and refetch the list is refetched, the modal closed, nothing edited and the form fresh; a failure changes only the error |
| News.AnnouncementsDashboard.HandleEdit | dashboard/pages/News.jsx:100-115 | sets the current announcement, its normalised form, and opens the modal |
| News.AnnouncementsDashboard.HandleDelete | dashboard/pages/News.jsx:117-132 | nothing happens unless confirmed; success replaces the list, failure sets "Failed to delete announcement" and keeps the list |
| News.AnnouncementsDashboard.OpenModal | dashboard/pages/News.jsx:388 | only opens the modal |
| News.AnnouncementsDashboard.CloseModal | dashboard/pages/News.jsx:471-476 | closes the modal and clears the current announcement and the error; the form is kept |
| Achievements.ResetDraft | dashboard/pages/Acheivements.jsx:39-50 | the reset draft: empty texts and tags, "award", not featured, `dateAcheived` today and no `dateAchieved` |
| Achievements.EditDraft | dashboard/pages/Acheivements.jsx:52-78 | edit defaults: `""`, "award" and false for missing fields, tags joined with ", ", the date given by `EditDate` |
| Achievements.EditDate | dashboard/pages/Acheivements.jsx:53-66 | a stored non-empty date is cut at `T`; a missing or empty one becomes today |
| Achievements.TrimAll | dashboard/pages/Acheivements.jsx:102 | each piece trimmed, same count |
| Achievements.DropEmpty | dashboard/pages/Acheivements.jsx:103 | keeps every non-empty piece as often as it occurs and drops every empty one (a multiset equality), and is the identity when none is empty |
| Achievements.DropEmptyAppend | dashboard/pages/Acheivements.jsx:103 | the filter keeps the order: filtering two runs in a row is filtering each and concatenating |
| Achievements.ParseTags | dashboard/pages/Acheivements.jsx:100-103 | every parsed tag is non-empty, trimmed and comma-free |
| Achievements.TagsRoundTrip | dashboard/pages/Acheivements.jsx:74-103 | parsing well-formed tags joined with ", " gives them back |
| Achievements.ParseTagsIdempotent | dashboard/pages/Acheivements.jsx:74-103 | showing parsed tags and parsing again changes nothing |
| Achievements.PayloadOf | dashboard/pages/Acheivements.jsx:98-105 | the draft spread with parsed tags, the date taken from `dateAcheived` |
| Achievements.DateInputMissesPayloadDate | dashboard/pages/Acheivements.jsx:229-231 | no field handler, the date input included, changes the payload's date; the date input only writes `dateAchieved` |
| Achievements.InitialDraftHasNoPayloadDate | dashboard/pages/Acheivements.jsx:13-20 | a draft never reset or loaded sends no `dateAcheived`, whatever is typed |
| Achievements.ApplyAllKeepsPayloadDate | dashboard/pages/Acheivements.jsx:181-261 | any sequence of field edits keeps `dateAcheived` |
| Achievements.EditThenSave | dashboard/pages/Acheivements.jsx:52-105 | opening an achievement with well-formed tags and saving sends back its tags, featured flag, title, description and category (with their defaults), and its date cut at `T`, or today when it had none |
| Achievements.EditedDateSurvivesSave | dashboard/pages/Acheivements.jsx:54-105 | the saved date is the stored date cut at `T`, or today when the stored date is missing or empty |
| Achievements.SaveRequest | dashboard/pages/Acheivements.jsx:107-119 | PUT to `/api/v1/acheivements/{id}` when editing, else POST to the collection, with the payload |
| Achievements.Normalise | dashboard/pages/Acheivements.jsx:31 | a bare array as is, else `data`, else `[]` |
| Achievements.AchievementsDashboard.constructor | dashboard/pages/Acheivements.jsx:7-20 | empty list, loading, no error, hidden form, the initial draft |
| Achievements.AchievementsDashboard.FetchAchievements | dashboard/pages/Acheivements.jsx:26-37 | a good reply sets the normalised list, a bad one "Failed to fetch acheivements", an exception its message; loading ends on every path |
| Achievements.AchievementsDashboard.ResetForm | dashboard/pages/Acheivements.jsx:39-50 | the reset draft, nothing edited, form hidden |
| Achievements.AchievementsDashboard.HandleEdit | dashboard/pages/Acheivements.jsx:52-78 | the edit draft, that achievement edited, form shown |
| Achievements.AchievementsDashboard.EditField | dashboard/pages/Acheivements.jsx:181-261 | one inline handler writes one draft field |
| Achievements.AchievementsDashboard.OpenForm | dashboard/pages/Acheivements.jsx:149 | only shows the form |
| Achievements.AchievementsDashboard.HandleDelete | dashboard/pages/Acheivements.jsx:80-93 | nothing unless confirmed; DELETE to the item; a refetch exactly on a good reply; otherwise only the error changes |
| Achievements.AchievementsDashboard.HandleSubmit | dashboard/pages/Acheivements.jsx:95-128 | sends `SaveRequest`; a good reply resets the form and refetches, a bad one sets its status text, an exception its message |
| AnnouncementPage.PriorityColor | src/Pages/AnnouncementPage.jsx:68-79 | red exactly for 1, amber for 2, green for 3, stone for anything else |
| AnnouncementPage.PriorityLabel | src/Pages/AnnouncementPage.jsx:181-185 | High exactly for 1, Medium for 2, Low for anything else |
| AnnouncementPage.ColorMatchesLabel | src/Pages/AnnouncementPage.jsx:181-185 | red goes with High, amber with Medium, green and stone with Low |
| AnnouncementPage.LabelsDisagreeWithDashboard | src/Pages/AnnouncementPage.jsx:181-185 | the page and the dashboard's table give the same label only for 0; they swap the labels of 1 and 2 |
| AnnouncementPage.DemoShowsEveryColor | src/Pages/AnnouncementPage.jsx:31-59 | the demo list is ids 1 to 3, all active, dated now, a day and two days back, priorities Medium, High, Low |
| AnnouncementPage.PublicAnnouncements.constructor | src/Pages/AnnouncementPage.jsx:15-17 | no announcements, loading, no error |
| AnnouncementPage.PublicAnnouncements.FetchAnnouncements | src/Pages/AnnouncementPage.jsx:19-66 | success shows `data.data`; a refusal sets "Failed to fetch announcements"; an exception sets the demo notice and the demo list; loading ends on every path |
| Home.YearsOfExperience | src/Pages/Home.jsx:25-27 | the current year less 1963, not negative from 1963 on |
| Home.SlideRemainder | src/Pages/Home.jsx:56-66 | JavaScript `%` by the slide count: the sign of the dividend, congruent to it |
| Home.Next | src/Pages/Home.jsx:61-63 | stays on a slide, and wraps the last slide to the first |
| Home.Prev | src/Pages/Home.jsx:65-67 | stays on a slide, and wraps the first slide to the last |
| Home.NextPrevInverse | src/Pages/Home.jsx:61-67 | previous undoes next and next undoes previous |
| Home.Advance | src/Pages/Home.jsx:53-63 | k timer ticks from a slide stay on a slide |
| Home.AdvanceIsModular | src/Pages/Home.jsx:53-59 | k timer ticks move k slides forward modulo 3 |
| Home.FullCycle | src/Pages/Home.jsx:53-63 | three ticks bring the carousel back to where it was |
| Home.Carousel.constructor | src/Pages/Home.jsx:23 | the carousel starts on the first slide |
| Home.Carousel.NextSlide | src/Pages/Home.jsx:55-63 | the next button and the timer move to `Next` and keep the index on a slide |
| Home.Carousel.PrevSlide | src/Pages/Home.jsx:65-67 | the previous button moves to `Prev` and keeps the index on a slide |
| Home.Carousel.GoTo | src/Pages/Home.jsx:162-165 | an indicator sets the index to its own position |
| Strings.Trim | dashboard/pages/Acheivements.jsx:102 | `trim()` returns the piece of the string left after cutting off only white space at the front and only white space at the back, and that piece has no white space at either end |
| Strings.SplitJoin | dashboard/pages/Acheivements.jsx:100-101 | splitting a join of separator-free pieces gives the pieces back |
| Strings.JoinSplit | dashboard/pages/Acheivements.jsx:100-101 | joining the pieces of a split gives the string back |
| Strings.DatePartOfTimestamp | dashboard/pages/News.jsx:105-110 | `split("T")[0]` of a date and a time is the date, and a plain date is kept |
| Strings.DecimalRoundTrip | dashboard/pages/CompanyInfo.jsx:138 | reading back the decimal digits of n gives n |

## Left out

- JSX markup, Tailwind classes and layout in every page. They are presentation only. The same goes for the loading and error screens, which only pick what to render.
- Network calls (`api` over axios, and `fetch`). They become parameters: an `Outcome` that is either the value a call returns or the error it throws. `response.ok` and `statusText` are a `Reply`. The module that creates `api` is not part of this model.
- Refetches after a save, restore or delete are reported by a `refresh`/`refetch`/`refetchIssued` result. Their effect is a separate call of the fetch method with its own outcome.
- Async interleaving and stale closures. Each handler is one atomic step. For example, the phone edit and removal read `companyInfo` from the closure rather than from `prev`.
- Clocks: `new Date()`, `Date.now()` and `toISOString` become parameters. The clock is `today`, a date string, or `now` in milliseconds with `iso`, a function standing for `toISOString`.
- `new Date(…)` in the payloads of both dashboards is not parsed: the payload carries the date string the form holds. JavaScript `Date` parsing and locale formatting are not modelled.
- Achievements.EditDraft: a stored date given as a `Date` object rather than a string is not modelled; dates are strings.
- News.ToNumber: `Number()` of text is modelled for decimal digit strings with surrounding white space, the empty text being 0. Signs, decimals, exponents and hexadecimal text are read as `NaN` (`None`). Only digit strings come from the select.
- Strings.Trim: white space is space, tab, line feed, carriage return, vertical tab, form feed, no-break space and the byte-order mark. JavaScript also trims the other Unicode space separators and the line and paragraph separators.
- CompanyInfo.InputChange: an input name that addresses no leaf of the record changes nothing. The form only renders names that address leaves. In JavaScript the effect depends on the name:
  - an unknown key adds that key to the half;
  - `location` on the about tab replaces the location object with the text;
  - `availableHours` or `phoneNumbers` on the contact tab replaces the object or the array with the text;
  - `phoneNumbers[x]` throws a `TypeError`, because the regular expression finds no match (dashboard/pages/CompanyInfo.jsx:138);
  - `availableHours.weekdays`, without a time, writes a key `"undefined"` inside that period.
- CompanyInfo.Update: a phone index at or past the end of the list changes nothing. In JavaScript it would extend the array. The form only renders indexes inside the list.
- CompanyInfo.ParseContactName: the phone index is taken from the digits right after `phoneNumbers[` and must be followed by `]`. The regular expression `/\[(\d+)\]/` would find the first bracketed number anywhere in the name. The two agree on every name the form renders (`CompanyInfo.PhoneNameRoundTrip`).
- CompanyInfo.CompanyInfoDashboard.SelectImage: the `URL.createObjectURL` preview is not modelled. Neither are file contents or the multipart encoding itself.
- CompanyInfo.CompanyInfoDashboard.ToggleHistory, CompanyInfo.CompanyInfoDashboard.RestoreFromHistory and CompanyInfo.CompanyInfoDashboard.DeleteHistoryItem are modelled as the handlers are written. In the shipped page they cannot be reached: the "View History" button (dashboard/pages/CompanyInfo.jsx:384-390) and the "Restore" button (412-418) are commented out, so `showHistory` stays false and the history panel with its delete button never renders.
- CompanyInfo.CompanyInfoDashboard.FetchCompanyInfo and CompanyInfo.ContactEntries assume that a fetched half is either missing or complete. A stored record that lacks some fields inside a half (`emailAppPassword`, the weekend times) is not modelled. The page guards such fields in its inputs with `|| ""` (dashboard/pages/CompanyInfo.jsx:667, 763-774). A save would then send the text "undefined" for each of them (lines 214-236).
- `window.confirm` is a `confirmed` parameter. The five-second `setInterval` is repeated `NextSlide` (`Home.Advance`). Clearing the timer on unmount is not modelled.
- The restore body sends `mission`, `vision` and `title` as the text "undefined" when the history entry lacks them, as `FormData.append` would (`Strings.Coerce`). It never sends `emailAppPassword` or an image (`CompanyInfo.RestoreOmitsSecretAndImage`).
- Console logging, the navigation bar and the application shell (routing, scrolling, the viewport-width check) are not modelled.
- The render block of the announcements dashboard that is commented out (dashboard/pages/News.jsx:141-370) is not modelled.
- The home page's `isVisible` entrance flag and its static slide texts are not modelled.
- Integers are unbounded. No page computes with numbers large enough to wrap.
