# BlackAir resume builder — a Dafny model of its client state and template filters

BlackAir is a resume builder. A user signs in, keeps a list of resumes, and edits a resume made
of a header (name, title, contacts, links) and six sections (education, experience, skills,
projects, certifications, achievements). This project models the parts of it that hold or
transform data:

- the Django template filters that turn stored text into resume markup: bullet lists, date
  ranges and phone numbers;
- the React client's authentication reducer and provider, including the tokens it keeps in
  browser storage;
- the React resume and resume-list hooks, the six section editors and the header editor;
- the login form, the create-resume dialog and the profile-picture upload, each with its
  validation;
- the two plain jQuery pages, the dashboard and the resume editor, with their global state.

Each source file is one module. A component or page whose state changes step by step is a
`class`. Its fields are the component's state, and it has one method per handler, keeping the
handler's name. Each callback to a parent is appended to a `calls` field, so that contracts can
state exactly what the parent was told. What the code computes without changing anything
(filters, reducer, list updates, form building) is written as functions, and lemmas state
their properties. Shared modules:

- `Common`: JSON values, JavaScript truthiness, Python and JavaScript whitespace stripping.
- `SectionList`: the draft-list rule the six React section editors share.
- `Records`: the id-keyed `find`/`findIndex`/`map`/`filter` the jQuery pages use.

An awaited server call is a parameter holding its outcome (`Result`, `Option` or `bool`). A
handler that changes state on both sides of an `await` is split into `Begin…` and `Finish…`
methods at that point.

## Model

| member | source | states |
|---|---|---|
| ResumeFilters.SplitLines | resume/templatetags/resume_filters.py:14 | `value.split('\n')` yields at least one piece and no piece holds a newline |
| ResumeFilters.JoinSplitLines | resume/templatetags/resume_filters.py:14 | joining the split pieces with newlines gives back the original text |
| ResumeFilters.SplitLinesPrefix | resume/templatetags/resume_filters.py:14 | a newline-free first line splits off as its own piece |
| ResumeFilters.SplitJoinLines | resume/templatetags/resume_filters.py:14 | splitting newline-free lines after joining them returns those lines |
| ResumeFilters.KeepLines | resume/templatetags/resume_filters.py:70 | every kept line is non-blank with no whitespace at either end |
| ResumeFilters.KeepLinesAppend | resume/templatetags/resume_filters.py:70 | lines are filtered one by one: the kept lines of two blocks are those of the first followed by those of the second |
| ResumeFilters.KeepLinesSingle | resume/templatetags/resume_filters.py:70 | one line gives nothing when it is all whitespace and its stripped self otherwise |
| ResumeFilters.KeepLinesEmpty | resume/templatetags/resume_filters.py:70 | nothing is kept exactly when every line is all whitespace |
| ResumeFilters.KeepCleanLines | resume/templatetags/resume_filters.py:70 | lines that are already stripped and non-blank are kept as they are, in order |
| ResumeFilters.KeepLinesNoNewline | resume/templatetags/resume_filters.py:70 | stripping never introduces a newline into a kept line |
| ResumeFilters.LinebreaksFilter | resume/templatetags/resume_filters.py:61-71 | empty input gives `[]`; other input gives the kept lines of its newline split; every returned bullet is non-blank, stripped and newline-free |
| ResumeFilters.AllInJoinLines | resume/templatetags/resume_filters.py:66-71 | lines joined by newlines are all whitespace exactly when every line is |
| ResumeFilters.LinebreaksFilterBlank | resume/templatetags/resume_filters.py:61-71 | no bullet comes back exactly when the text is all whitespace |
| ResumeFilters.LinebreaksFilterLine | resume/templatetags/resume_filters.py:66-71 | a first line contributes its stripped self when it is not blank, followed by the bullets of the rest of the text |
| ResumeFilters.JoinNonEmpty | resume/templatetags/resume_filters.py:66-67 | lines joined back with newlines are non-empty when the first line is |
| ResumeFilters.LinebreaksFilterSingleLine | resume/templatetags/resume_filters.py:66-71 | a text without a newline gives no bullet when blank and otherwise one bullet, itself stripped |
| ResumeFilters.LinebreaksFilterRoundTrip | resume/templatetags/resume_filters.py:61-71 | text written as one clean line per bullet comes back as exactly those bullets |
| ResumeFilters.LinebreaksToList | resume/templatetags/resume_filters.py:9-19 | `""` exactly when no stripped line survives; otherwise `<ul>`, one `<li>` per surviving line, `</ul>` |
| ResumeFilters.ItemsHtml | resume/templatetags/resume_filters.py:18-19 | the item markup is empty exactly when there are no lines |
| ResumeFilters.ItemsHtmlEnds | resume/templatetags/resume_filters.py:18-19 | non-empty markup opens with `<li>` and closes with `</li>` |
| ResumeFilters.ItemsHtmlAppend | resume/templatetags/resume_filters.py:18-19 | the markup of two blocks of lines is the markup of the first followed by that of the second |
| ResumeFilters.ItemsHtmlSingle | resume/templatetags/resume_filters.py:18-19 | one line is exactly one `<li>line</li>` item |
| ResumeFilters.OccurrencesAppend | resume/templatetags/resume_filters.py:18 | counting a character over a concatenation adds the two counts |
| ResumeFilters.OccurrencesAbsent | resume/templatetags/resume_filters.py:18 | a character that does not occur is counted zero times |
| ResumeFilters.ItemsHtmlTagCount | resume/templatetags/resume_filters.py:18-19 | for lines without `<`, the items hold exactly two tags per line, so one `<li>` element per bullet |
| ResumeFilters.NatToString | resume/templatetags/resume_filters.py:32 | a year renders as a non-empty string of decimal digits |
| ResumeFilters.ParseNatToString | resume/templatetags/resume_filters.py:32 | the rendered year reads back as the same number |
| ResumeFilters.YearTextLength | resume/templatetags/resume_filters.py:32 | a year from 1000 to 9999 renders as four digits |
| ResumeFilters.DateText | resume/templatetags/resume_filters.py:29-39 | a string is used verbatim, a date gives its year as digits that read back as that year, any other value its `str()`, and `None` gives `"None"` |
| ResumeFilters.FormatDateRange | resume/templatetags/resume_filters.py:23-41 | a falsy start gives `""`; otherwise `start - end` for a truthy end and `start - Present` for a missing or falsy end, with strings verbatim, dates as their year and other values as their `str` |
| ResumeFilters.FormatDateYears | resume/templatetags/resume_filters.py:29-39 | two dates render as `Y1 - Y2`, and each year reads back from the text |
| ResumeFilters.Digits | resume/templatetags/resume_filters.py:51 | removing the non-digits leaves only digits |
| ResumeFilters.DigitsSingle | resume/templatetags/resume_filters.py:51 | a single digit is kept and any other character is dropped |
| ResumeFilters.DigitsAppend | resume/templatetags/resume_filters.py:51 | the digits of a concatenation are the digits of each part, in order |
| ResumeFilters.DigitsOfDigits | resume/templatetags/resume_filters.py:51 | a string of digits is its own digit string |
| ResumeFilters.PhoneFormat | resume/templatetags/resume_filters.py:45-57 | empty gives `""`; exactly ten digits give `(ddd) ddd-dddd` built from them; anything else comes back unchanged |
| ResumeFilters.PhoneFormatKeepsDigits | resume/templatetags/resume_filters.py:51-57 | formatting keeps exactly the digits, in their order |
| ResumeFilters.PhoneFormatIdempotent | resume/templatetags/resume_filters.py:45-57 | formatting a formatted number changes nothing |
| Common.TextOr | static/js/resume-editor.js:138-148 | `obj.key \|\| ''` for text fields: the string when one is stored, `""` otherwise |
| Common.TrimEnd | resume/templatetags/resume_filters.py:70 | the result is a prefix, only whitespace was removed, and it does not end in whitespace |
| Common.Strip | resume/templatetags/resume_filters.py:70 | `strip()` returns a middle part of the text with only whitespace cut from both sides; the result has no whitespace at either end and is empty exactly when the text is all whitespace |
| Common.Trim | frontend/src/components/auth/LoginForm.js:24 | `String.prototype.trim()` returns a middle part of the text with only whitespace cut from both sides; the result has no whitespace at either end and is empty exactly when the text is all whitespace |
| Common.StripSubstring | resume/templatetags/resume_filters.py:70 | every character of a stripped line comes from the line |
| Common.StripNoEdgeSpace | resume/templatetags/resume_filters.py:70 | stripping a text without edge whitespace returns it unchanged |
| Common.StripIdempotent | resume/templatetags/resume_filters.py:70 | stripping twice is the same as stripping once |
| AuthContext.InitialState | frontend/src/context/AuthContext.js:7-13 | the token is what storage holds under `accessToken`; signed in exactly when that token is non-empty; no user, not loading, no error |
| AuthContext.MergeUser | frontend/src/context/AuthContext.js:67-71 | `{...user, ...changes}`: the changes win, every other key comes from the old user, and a null user contributes nothing |
| AuthContext.Reduce | frontend/src/context/AuthContext.js:15-75 | only LOGIN_SUCCESS signs in, and it installs the access token; only a login, a failure or a logout changes the token; only those and the two user actions change the user; logout and the user actions leave the loading flag |
| AuthContext.StorageAfter | frontend/src/context/AuthContext.js:24-56 | storage keys other than the two tokens never change; only LOGIN_SUCCESS and LOGOUT write; a login stores the access token and a logout removes both |
| AuthContext.StartOnlyLoads | frontend/src/context/AuthContext.js:17-23 | LOGIN_START and REGISTER_START keep the session, set loading, clear the error and leave every storage unchanged |
| AuthContext.LoginSuccessStoresTokens | frontend/src/context/AuthContext.js:24-35 | LOGIN_SUCCESS signs in with the access token and stores it, stores the refresh token exactly when a non-empty one is given, and keeps every other key |
| AuthContext.RegisterSuccessKeepsSession | frontend/src/context/AuthContext.js:36-41 | REGISTER_SUCCESS signs nobody in and writes no storage |
| AuthContext.FailureWritesNoToken | frontend/src/context/AuthContext.js:42-51 | a login or registration failure signs out in memory, records the message and leaves storage alone |
| AuthContext.LogoutClearsTokens | frontend/src/context/AuthContext.js:52-61 | LOGOUT removes both tokens and only those, clears the session and leaves the loading flag |
| AuthContext.UserActionsOnlyTouchUser | frontend/src/context/AuthContext.js:62-73 | SET_USER and UPDATE_PROFILE_SUCCESS change only the user; an unknown action changes nothing |
| AuthContext.InitialStateConsistent | frontend/src/context/AuthContext.js:7-13 | the initial state mirrors storage, and being signed in implies holding a token |
| AuthContext.ReduceKeepsSignedInHasToken | frontend/src/context/AuthContext.js:15-75 | every action keeps "signed in implies a token" |
| AuthContext.ReduceKeepsMirror | frontend/src/context/AuthContext.js:15-75 | every action except a failure keeps the in-memory token equal to the stored one |
| AuthContext.FailureLeavesStoredToken | frontend/src/context/AuthContext.js:42-51 | a failure while a token is stored leaves memory and storage disagreeing |
| AuthContext.OrNull | frontend/src/context/AuthContext.js:95-100 | `x \|\| null`: the stored value whenever it is truthy, and null whenever the key is missing or its value falsy |
| AuthContext.CombineUser | frontend/src/context/AuthContext.js:95-100 | the user record plus `profile_pic`, `city` and `country` taken from the profile, every other user key unchanged |
| AuthContext.Detail | frontend/src/context/AuthContext.js:126 | the server's non-empty `detail`, otherwise the fallback message |
| AuthContext.AuthProvider.constructor | frontend/src/context/AuthContext.js:77-78 | the provider starts from the initial state read from storage |
| AuthContext.AuthProvider.Dispatch | frontend/src/context/AuthContext.js:15-75 | the new state is the reducer's result and storage gets the reducer's writes |
| AuthContext.AuthProvider.LoadUser | frontend/src/context/AuthContext.js:80-110 | a loaded user is set with the combined profile (a failed profile request counts as empty); a failed user request removes both tokens and logs out |
| AuthContext.AuthProvider.Login | frontend/src/context/AuthContext.js:118-131 | LOGIN_START then LOGIN_SUCCESS with the returned tokens, or LOGIN_FAILURE with the detail or 'Login failed', whose message is returned as the error; storage is untouched on failure |
| AuthContext.AuthProvider.Register | frontend/src/context/AuthContext.js:133-146 | REGISTER_START then REGISTER_SUCCESS or REGISTER_FAILURE with the detail or 'Registration failed'; storage is untouched and nobody becomes signed in |
| AuthContext.AuthProvider.SignOut | frontend/src/context/AuthContext.js:148-151 | LOGOUT: both tokens removed and the session cleared |
| SectionList.ReplaceById | frontend/src/components/resume/ResumeEducationSection.js:43-45 | every item with the draft's id becomes the draft; every other item stays in place |
| SectionList.DeleteById | frontend/src/components/resume/ResumeEducationSection.js:60 | every kept item has another id and comes from the list |
| SectionList.SaveDraft | frontend/src/components/resume/ResumeEducationSection.js:32-46 | a `'new'` draft is appended with its id removed; any other draft replaces by id |
| SectionList.SetField | frontend/src/components/resume/ResumeEducationSection.js:65-70 | one field takes the new value and every other field and the id are unchanged; with no draft, only that field exists |
| SectionList.Ids | frontend/src/components/resume/ResumeEducationSection.js:43-45 | the ids of a list, position by position |
| SectionList.SaveExistingKeepsIds | frontend/src/components/resume/ResumeEducationSection.js:41-46 | saving an existing draft never changes the ids or their order |
| SectionList.SaveNewAppendsIdless | frontend/src/components/resume/ResumeEducationSection.js:33-40 | saving a new draft adds exactly one item at the end, without an id |
| SectionList.DeleteAfterSave | frontend/src/components/resume/ResumeEducationSection.js:41-63 | save-then-delete of an existing draft equals deleting straight away |
| SectionList.DeleteByIdAppend | frontend/src/components/resume/ResumeEducationSection.js:60 | deleting from a concatenation deletes from each part, keeping order |
| SectionList.DeleteByIdIdempotent | frontend/src/components/resume/ResumeEducationSection.js:60 | deleting the same id twice removes nothing more |
| SectionList.DeleteKeepsOthers | frontend/src/components/resume/ResumeEducationSection.js:60 | every item with another id survives a delete |
| SectionList.DeleteByIdLength | frontend/src/components/resume/ResumeEducationSection.js:60 | a delete removes exactly the items carrying the id, and all of them |
| SectionList.CountIdAppend | frontend/src/components/resume/ResumeEducationSection.js:60 | id counts add over concatenation |
| SectionList.DeleteAbsentId | frontend/src/components/resume/ResumeEducationSection.js:60 | deleting an id no item carries changes nothing |
| EducationSection.EducationEditor.constructor | frontend/src/components/resume/ResumeEducationSection.js:6-8 | starts with the given list, no draft, not adding, no calls |
| EducationSection.EducationEditor.Receive | frontend/src/components/resume/ResumeEducationSection.js:6 | a new `education` prop replaces the list and nothing else |
| EducationSection.EducationEditor.HandleAdd | frontend/src/components/resume/ResumeEducationSection.js:11-23 | opens a draft with id `'new'` and the seven blank education fields |
| EducationSection.EducationEditor.HandleEdit | frontend/src/components/resume/ResumeEducationSection.js:25-27 | the draft is a copy of the item |
| EducationSection.EducationEditor.HandleSave | frontend/src/components/resume/ResumeEducationSection.js:29-51 | with a draft, `onUpdate` gets the saved list once and the draft closes; without one, nothing happens |
| EducationSection.EducationEditor.HandleCancel | frontend/src/components/resume/ResumeEducationSection.js:53-56 | the draft closes and the parent is not told |
| EducationSection.EducationEditor.HandleDelete | frontend/src/components/resume/ResumeEducationSection.js:58-63 | if confirmed, `onUpdate` gets the list without the target's id; otherwise no call |
| EducationSection.EducationEditor.HandleInputChange | frontend/src/components/resume/ResumeEducationSection.js:65-70 | the draft becomes the previous draft with one field set |
| ProjectsSection.ProjectsEditor.constructor | frontend/src/components/resume/ResumeProjectsSection.js:6-8 | starts with the given list, no draft, not adding, no calls |
| ProjectsSection.ProjectsEditor.Receive | frontend/src/components/resume/ResumeProjectsSection.js:6 | a new `projects` prop replaces the list and nothing else |
| ProjectsSection.ProjectsEditor.HandleAdd | frontend/src/components/resume/ResumeProjectsSection.js:11-23 | opens a draft with id `'new'` and the blank project fields |
| ProjectsSection.ProjectsEditor.HandleEdit | frontend/src/components/resume/ResumeProjectsSection.js:25-27 | the draft is a copy of the item |
| ProjectsSection.ProjectsEditor.HandleSave | frontend/src/components/resume/ResumeProjectsSection.js:29-48 | with a draft, `onUpdate` gets the saved list once and the draft closes; without one, nothing happens |
| ProjectsSection.ProjectsEditor.HandleCancel | frontend/src/components/resume/ResumeProjectsSection.js:50-53 | the draft closes and the parent is not told |
| ProjectsSection.ProjectsEditor.HandleDelete | frontend/src/components/resume/ResumeProjectsSection.js:55-60 | if confirmed, `onUpdate` gets the list without the target's id; otherwise no call |
| ProjectsSection.ProjectsEditor.HandleInputChange | frontend/src/components/resume/ResumeProjectsSection.js:62-67 | the draft becomes the previous draft with one field set |
| CertificationsSection.CertificationsEditor.constructor | frontend/src/components/resume/ResumeCertificationsSection.js:6-8 | starts with the given list, no draft, not adding, no calls |
| CertificationsSection.CertificationsEditor.Receive | frontend/src/components/resume/ResumeCertificationsSection.js:6 | a new `certifications` prop replaces the list and nothing else |
| CertificationsSection.CertificationsEditor.HandleAdd | frontend/src/components/resume/ResumeCertificationsSection.js:11-22 | opens a draft with id `'new'` and the blank certification fields |
| CertificationsSection.CertificationsEditor.HandleEdit | frontend/src/components/resume/ResumeCertificationsSection.js:24-26 | the draft is a copy of the item |
| CertificationsSection.CertificationsEditor.HandleSave | frontend/src/components/resume/ResumeCertificationsSection.js:28-47 | with a draft, `onUpdate` gets the saved list once and the draft closes; without one, nothing happens |
| CertificationsSection.CertificationsEditor.HandleCancel | frontend/src/components/resume/ResumeCertificationsSection.js:49-52 | the draft closes and the parent is not told |
| CertificationsSection.CertificationsEditor.HandleDelete | frontend/src/components/resume/ResumeCertificationsSection.js:54-59 | if confirmed, `onUpdate` gets the list without the target's id; otherwise no call |
| CertificationsSection.CertificationsEditor.HandleInputChange | frontend/src/components/resume/ResumeCertificationsSection.js:61-66 | the draft becomes the previous draft with one field set |
| AchievementsSection.AchievementsEditor.constructor | frontend/src/components/resume/ResumeAchievementsSection.js:6-8 | starts with the given list, no draft, not adding, no calls |
| AchievementsSection.AchievementsEditor.Receive | frontend/src/components/resume/ResumeAchievementsSection.js:6 | a new `achievements` prop replaces the list and nothing else |
| AchievementsSection.AchievementsEditor.HandleAdd | frontend/src/components/resume/ResumeAchievementsSection.js:11-20 | opens a draft with id `'new'` and the blank achievement fields |
| AchievementsSection.AchievementsEditor.HandleEdit | frontend/src/components/resume/ResumeAchievementsSection.js:22-24 | the draft is a copy of the item |
| AchievementsSection.AchievementsEditor.HandleSave | frontend/src/components/resume/ResumeAchievementsSection.js:26-45 | with a draft, `onUpdate` gets the saved list once and the draft closes; without one, nothing happens |
| AchievementsSection.AchievementsEditor.HandleCancel | frontend/src/components/resume/ResumeAchievementsSection.js:47-50 | the draft closes and the parent is not told |
| AchievementsSection.AchievementsEditor.HandleDelete | frontend/src/components/resume/ResumeAchievementsSection.js:52-57 | if confirmed, `onUpdate` gets the list without the target's id; otherwise no call |
| AchievementsSection.AchievementsEditor.HandleInputChange | frontend/src/components/resume/ResumeAchievementsSection.js:59-64 | the draft becomes the previous draft with one field set |
| ExperienceSection.EditDraft | frontend/src/components/resume/ResumeExperienceSection.js:75-86 | one field set; ticking `is_current` also empties `end_date`; every other field and the id are kept |
| ExperienceSection.ExperienceEditor.constructor | frontend/src/components/resume/ResumeExperienceSection.js:6-10 | starts with the given list, no draft, not adding, not saving, no calls |
| ExperienceSection.ExperienceEditor.Receive | frontend/src/components/resume/ResumeExperienceSection.js:6 | a new `experience` prop replaces the list and nothing else |
| ExperienceSection.ExperienceEditor.HandleAdd | frontend/src/components/resume/ResumeExperienceSection.js:12-24 | opens a draft with id `'new'`, blank text fields and `is_current` false |
| ExperienceSection.ExperienceEditor.HandleEdit | frontend/src/components/resume/ResumeExperienceSection.js:26-28 | the draft is a copy of the item |
| ExperienceSection.ExperienceEditor.BeginSave | frontend/src/components/resume/ResumeExperienceSection.js:30-52 | with a draft: saving starts, and `onUpdate` then `onSave` get the same saved list; without one, nothing happens |
| ExperienceSection.ExperienceEditor.FinishSave | frontend/src/components/resume/ResumeExperienceSection.js:52-60 | saving ends; the draft closes only when `onSave` resolved |
| ExperienceSection.ExperienceEditor.HandleCancel | frontend/src/components/resume/ResumeExperienceSection.js:63-66 | the draft closes and the parent is not told |
| ExperienceSection.ExperienceEditor.HandleDelete | frontend/src/components/resume/ResumeExperienceSection.js:68-73 | if confirmed, `onUpdate` gets the list without the target's id; otherwise no call |
| ExperienceSection.ExperienceEditor.HandleInputChange | frontend/src/components/resume/ResumeExperienceSection.js:75-86 | the draft becomes the previous draft edited by the `is_current` rule |
| SkillsSection.SkillsEditor.constructor | frontend/src/components/resume/ResumeSkillsSection.js:6-10 | starts with the given list, no draft, not adding, not saving, no calls |
| SkillsSection.SkillsEditor.Receive | frontend/src/components/resume/ResumeSkillsSection.js:6 | a new `skills` prop replaces the list and nothing else |
| SkillsSection.SkillsEditor.HandleAdd | frontend/src/components/resume/ResumeSkillsSection.js:12-20 | opens a draft with id `'new'`, a blank name and proficiency 'Intermediate' |
| SkillsSection.SkillsEditor.HandleEdit | frontend/src/components/resume/ResumeSkillsSection.js:22-24 | the draft is a copy of the item |
| SkillsSection.SkillsEditor.BeginSave | frontend/src/components/resume/ResumeSkillsSection.js:26-48 | with a draft: saving starts, and `onUpdate` then `onSave` get the same saved list; without one, nothing happens |
| SkillsSection.SkillsEditor.FinishSave | frontend/src/components/resume/ResumeSkillsSection.js:48-56 | saving ends; the draft closes only when `onSave` resolved |
| SkillsSection.SkillsEditor.HandleCancel | frontend/src/components/resume/ResumeSkillsSection.js:59-62 | the draft closes and the parent is not told |
| SkillsSection.SkillsEditor.HandleDelete | frontend/src/components/resume/ResumeSkillsSection.js:64-69 | if confirmed, `onUpdate` gets the list without the target's id; otherwise no call |
| SkillsSection.SkillsEditor.HandleInputChange | frontend/src/components/resume/ResumeSkillsSection.js:71-76 | the draft becomes the previous draft with one field set |
| HeaderSection.Keys | frontend/src/components/resume/ResumeHeaderSection.js:36 | `Object.keys`: one name per property, in order |
| HeaderSection.Get | frontend/src/components/resume/ResumeHeaderSection.js:37 | `form[key]` is undefined exactly when no property has that name |
| HeaderSection.GetAt | frontend/src/components/resume/ResumeHeaderSection.js:37 | on an object, reading a property's name gives that property's value |
| HeaderSection.Put | frontend/src/components/resume/ResumeHeaderSection.js:43-48 | an existing property keeps its place and takes the value; a new one goes last; all others are unchanged |
| HeaderSection.PutUnique | frontend/src/components/resume/ResumeHeaderSection.js:43-48 | a change keeps every property name distinct |
| HeaderSection.PutGet | frontend/src/components/resume/ResumeHeaderSection.js:43-48 | the changed field reads back as the new value, and every other field as before |
| HeaderSection.OrEmpty | frontend/src/components/resume/ResumeHeaderSection.js:9-17 | `resume?.key \|\| ''`: the stored value whenever it is truthy, and `''` whenever the key is missing or its value falsy |
| HeaderSection.FormFrom | frontend/src/components/resume/ResumeHeaderSection.js:8-18 | the nine header fields, in order, each read with `\|\| ''` |
| HeaderSection.HeaderKeysDistinct | frontend/src/components/resume/ResumeHeaderSection.js:8-18 | the nine header field names are all different |
| HeaderSection.FormOf | frontend/src/components/resume/ResumeHeaderSection.js:53-63 | one property per given name, in order, each read with `\|\| ''`, and distinct names for distinct keys |
| HeaderSection.ApplyUpdatesGet | frontend/src/components/resume/ResumeHeaderSection.js:36-38 | a parent that stores each reported field holds each field's value and nothing else changed |
| HeaderSection.SaveRoundTrip | frontend/src/components/resume/ResumeHeaderSection.js:34-65 | after a save is stored by the parent and comes back as the prop, the rebuilt form equals the saved form |
| HeaderSection.HeaderEditor.constructor | frontend/src/components/resume/ResumeHeaderSection.js:7-19 | not editing, no snapshot, no calls, the form built from the resume (null as an empty object) |
| HeaderSection.HeaderEditor.Receive | frontend/src/components/resume/ResumeHeaderSection.js:51-65 | a non-null resume prop rebuilds the form; a null one keeps it |
| HeaderSection.HeaderEditor.HandleEdit | frontend/src/components/resume/ResumeHeaderSection.js:21-24 | the snapshot is the current form and editing starts |
| HeaderSection.HeaderEditor.HandleCancel | frontend/src/components/resume/ResumeHeaderSection.js:26-32 | the snapshot, if any, becomes the form; editing stops and the snapshot is dropped |
| HeaderSection.HeaderEditor.HandleChange | frontend/src/components/resume/ResumeHeaderSection.js:43-48 | the form becomes the old form with one field set |
| HeaderSection.HeaderEditor.HandleSave | frontend/src/components/resume/ResumeHeaderSection.js:34-41 | `onUpdate(key, value)` is called once per property, in key order, with the stored values; editing stops |
| Records.FindIndex | static/js/resume-editor.js:864-865 | the first index whose record has the id, or -1 when none has |
| Records.Find | static/js/dashboard.js:282 | `undefined` exactly when no record has the id; otherwise the record at `FindIndex`, the first one with the id |
| Records.ReplaceId | frontend/src/hooks/useResumes.js:40-42 | every record with the id becomes the updated one; every other stays in place |
| Records.RemoveId | frontend/src/hooks/useResumes.js:53 | every kept record has another id and comes from the list |
| Records.RemoveIdAppend | frontend/src/hooks/useResumes.js:53 | records are filtered one by one: the kept records of two blocks are those of the first followed by those of the second, so order is kept |
| Records.RemoveIdSingle | frontend/src/hooks/useResumes.js:53 | a single record is dropped exactly when it carries the id |
| Records.RemoveIdLength | frontend/src/hooks/useResumes.js:53 | a delete removes as many records as carry the id, and none carrying it remains |
| Records.CountIdAppend | frontend/src/hooks/useResumes.js:53 | id counts add over concatenation (the record-list counterpart of `SectionList.CountIdAppend`) |
| Records.RemoveIdKeepsOthers | frontend/src/hooks/useResumes.js:53 | every record with another id survives a delete |
| Records.RemoveAbsentId | frontend/src/hooks/useResumes.js:53 | deleting an id no record carries changes nothing |
| Records.RemoveIdIdempotent | frontend/src/hooks/useResumes.js:53 | deleting the same id twice removes nothing more |
| Records.RemoveAfterReplace | frontend/src/hooks/useResumes.js:36-59 | when the server keeps the id, update-then-delete equals delete |
| UseResumes.ResumesStore.constructor | frontend/src/hooks/useResumes.js:6-8 | no resumes, loading, no error |
| UseResumes.ResumesStore.BeginFetch | frontend/src/hooks/useResumes.js:10-12 | loading starts and nothing else changes |
| UseResumes.ResumesStore.FinishFetch | frontend/src/hooks/useResumes.js:10-22 | the fetched list replaces the old one and clears the error; a failure keeps the list and records its message; loading ends |
| UseResumes.ResumesStore.CreateResume | frontend/src/hooks/useResumes.js:24-34 | the created resume goes last and is returned; a failure is rethrown and the list is kept |
| UseResumes.ResumesStore.UpdateResume | frontend/src/hooks/useResumes.js:36-48 | every resume with the id becomes the returned one; a failure is rethrown and the list is kept |
| UseResumes.ResumesStore.DeleteResume | frontend/src/hooks/useResumes.js:50-59 | success drops every resume with the id; a failure is rethrown and the list is kept |
| UseResumes.ResumesStore.DuplicateResume | frontend/src/hooks/useResumes.js:61-71 | the server's copy goes last and is returned; a failure is rethrown and the list is kept |
| UseResume.Combine | frontend/src/hooks/useResume.js:44-57 | the resume's own keys plus the six section keys, each section holding its loaded list |
| UseResume.Merge | frontend/src/hooks/useResume.js:80-83 | `{...prev, ...newData}`: the new keys win and every other key is kept |
| UseResume.MergeIdempotent | frontend/src/hooks/useResume.js:80-83 | merging the same changes twice changes nothing more |
| UseResume.MergeKeepsSections | frontend/src/hooks/useResume.js:44-57 | an edit that names no section keeps every loaded section |
| UseResume.ResumeHook.constructor | frontend/src/hooks/useResume.js:13-17 | no resume, loading, no error, nothing unsaved |
| UseResume.ResumeHook.BeginFetch | frontend/src/hooks/useResume.js:19-22 | starts exactly when the id is truthy, and then sets loading |
| UseResume.ResumeHook.FinishFetch | frontend/src/hooks/useResume.js:44-64 | a load stores the combined resume and clears the error and the unsaved flag; a failure records its message; loading ends |
| UseResume.ResumeHook.UpdateResume | frontend/src/hooks/useResume.js:67-78 | the server's record becomes the resume and nothing is unsaved; a failure is rethrown and nothing changes |
| UseResume.ResumeHook.UpdateResumeData | frontend/src/hooks/useResume.js:80-83 | the changes merge over the resume (null as an empty object) and it is marked unsaved |
| UseResume.ResumeHook.ResetChanges | frontend/src/hooks/useResume.js:85-87 | loads the resume again, as the fetch does |
| ResumeEditor.SectionsFrom | static/js/resume-editor.js:151-165 | each of the six section keys holds its loaded list |
| ResumeEditor.EverySection | static/js/resume-editor.js:4-28 | a map holding the six keys holds every section |
| ResumeEditor.LoadSavedHeader | static/js/resume-editor.js:1120-1131 | a header sent by `saveResume` reads back as the same header when loaded |
| ResumeEditor.SaveLoadedHeader | static/js/resume-editor.js:138-148 | a header field stored as text goes back unchanged under its own name; a missing one goes back as `''` |
| ResumeEditor.HeaderFromResume | static/js/resume-editor.js:138-148 | each header field is the text the resume holds under its backend name, or `''` |
| ResumeEditor.SavePayload | static/js/resume-editor.js:1120-1131 | the body holds exactly the title and the nine backend header names, the title as given and each header field as text under its backend name |
| ResumeEditor.PlaceSaved | static/js/resume-editor.js:851-866 | `'new'` pushes the saved record; otherwise it is assigned at the first match, and with no match the list is unchanged |
| ResumeEditor.SaveExistingTouchesOne | static/js/resume-editor.js:864-867 | saving an existing item changes the first item with its id and no other |
| ResumeEditor.FormDataOf | static/js/resume-editor.js:1161-1175 | only named controls are stored |
| ResumeEditor.FormDataNames | static/js/resume-editor.js:1161-1175 | a name is in the form data exactly when some control carries it |
| ResumeEditor.FormDataLast | static/js/resume-editor.js:1161-1175 | the value under a name is the value of the last control with that name: a checkbox's checked state, otherwise its value |
| ResumeEditor.ItemBodyAsWritten | static/js/resume-editor.js:882-888 | the body as the code builds it agrees with the corrected body on every key except `is_current`, and an experience checkbox holding a boolean is sent as `false` |
| ResumeEditor.IsCurrentNeverSent | static/js/resume-editor.js:888 | as written, a ticked "currently working here" box is sent as `is_current: false` |
| ResumeEditor.ItemBody | static/js/resume-editor.js:882-888 | the form data plus the resume id; for experience `is_current` is always a boolean, `true` exactly when the checkbox held `true` |
| ResumeEditor.IsCurrentSent | static/js/resume-editor.js:888 | with the correction, a ticked box is sent as `is_current: true` |
| ResumeEditor.IsCurrentUntickedSent | static/js/resume-editor.js:888 | with the correction, an unticked box is sent as `is_current: false` |
| ResumeEditor.NonEmptyLinks | static/js/resume-editor.js:1335-1364 | only links with a url are kept |
| ResumeEditor.NonEmptyLinksAppend | static/js/resume-editor.js:1335-1364 | links are filtered one by one: the kept links of two blocks are those of the first followed by those of the second |
| ResumeEditor.NonEmptyLinksSingle | static/js/resume-editor.js:1335-1364 | a single link is kept exactly when its url is filled in |
| ResumeEditor.NonEmpty | static/js/resume-editor.js:1318-1331 | only non-empty contacts are kept |
| ResumeEditor.NonEmptyAppend | static/js/resume-editor.js:1318-1331 | contacts are filtered one by one: the kept contacts of two blocks are those of the first followed by those of the second |
| ResumeEditor.NonEmptySingle | static/js/resume-editor.js:1318-1331 | a single contact is kept exactly when it is not empty |
| ResumeEditor.LinksUnfold | static/js/resume-editor.js:1335-1364 | the kept links are, in order, LinkedIn, GitHub, Portfolio and Twitter, each present exactly when its url is filled in |
| ResumeEditor.ContactsUnfold | static/js/resume-editor.js:1318-1331 | the kept contacts are phone, email and location, each when filled in; the placeholder shows exactly when none is |
| ResumeEditor.ContactChips | static/js/resume-editor.js:1318-1331 | the chips appended are the filled-in contacts, in order |
| ResumeEditor.SocialLinks | static/js/resume-editor.js:1335-1364 | the links pushed are the filled-in links, in order |
| ResumeEditor.Editor.constructor | static/js/resume-editor.js:4-28 | nothing loaded, nothing unsaved, an empty header and six empty sections |
| ResumeEditor.Editor.MarkAsChanged | static/js/resume-editor.js:1177-1181 | the page has unsaved changes and nothing else changes |
| ResumeEditor.Editor.MarkAsSaved | static/js/resume-editor.js:1183-1187 | the page has no unsaved changes and nothing else changes |
| ResumeEditor.Editor.LoadResumeData | static/js/resume-editor.js:133-166 | the resume and its header are stored when the resume arrives; the six lists only when the section load also succeeds |
| ResumeEditor.Editor.SetTitle | static/js/resume-editor.js:61-66 | the title goes on a loaded resume and the page is marked changed; with none loaded nothing changes |
| ResumeEditor.Editor.EditHeader | static/js/resume-editor.js:69-74 | the copy is the current header |
| ResumeEditor.Editor.CancelHeader | static/js/resume-editor.js:76-85 | the copy, if any, becomes the header and the form; the copy is kept |
| ResumeEditor.Editor.HeaderInput | static/js/resume-editor.js:98-100 | the form takes the typed values and the page is marked changed |
| ResumeEditor.Editor.SaveHeader | static/js/resume-editor.js:87-95 | the header becomes the form, the page is marked changed and the copy is dropped |
| ResumeEditor.Editor.InitializeHeader | static/js/resume-editor.js:1381-1398 | a header without name, email and phone becomes the placeholder; the form is loaded from the header |
| ResumeEditor.Editor.UpdateHeaderDisplay | static/js/resume-editor.js:1307-1379 | the name or 'Your Name', the filled-in contacts, the placeholder exactly when none, and the filled-in links, in order |
| ResumeEditor.Editor.GetFormData | static/js/resume-editor.js:1161-1175 | the loop builds exactly the form data of the controls |
| ResumeEditor.Editor.SaveItem | static/js/resume-editor.js:842-879 | sends the corrected body (the form data with the resume id, the experience checkbox as its boolean); on success places the saved record and marks the page saved; a failure changes nothing |
| ResumeEditor.Editor.DeleteItem | static/js/resume-editor.js:1078-1112 | a `'new'` item sends nothing; otherwise a successful DELETE drops every item with the id and marks the page saved |
| ResumeEditor.Editor.SaveResume | static/js/resume-editor.js:1115-1152 | sends the title and the header under the backend's names; success marks the page saved; with no resume loaded nothing is sent |
| Dashboard.IsRecentlyModified | static/js/dashboard.js:75-77 | recent exactly when now is less than 604800000 ms after `updated_at`, or after `created_at` for a resume never updated |
| Dashboard.TitleText | static/js/dashboard.js:284 | `${resume.title}`: a string verbatim, `"null"`, `"true"`/`"false"`, and `"undefined"` for a missing title |
| Dashboard.WeekMsValue | static/js/dashboard.js:75-77 | the one-week window is 604800000 ms |
| Dashboard.RecentWindow | static/js/dashboard.js:75-77 | a card is recent from its last change until just before one week (604800000 ms) later, and not after |
| Dashboard.DashboardPage.constructor | static/js/dashboard.js:3-4 | no resumes and no selection |
| Dashboard.DashboardPage.LoadResumes | static/js/dashboard.js:41-52 | the fetched list replaces the array; a failure keeps it |
| Dashboard.DashboardPage.SelectResume | static/js/dashboard.js:208-228 | the selection is the given id |
| Dashboard.DashboardPage.CloseResumeActionsModal | static/js/dashboard.js:213-216 | the selection is cleared |
| Dashboard.DashboardPage.HandleCreateResume | static/js/dashboard.js:230-263 | a blank title is refused with a message and no request; otherwise the trimmed title is posted and the new resume goes first, or the failure message is shown |
| Dashboard.DashboardPage.EditResume | static/js/dashboard.js:265-273 | navigates exactly for a truthy id |
| Dashboard.DashboardPage.ViewResume | static/js/dashboard.js:275-286 | the found resume's title is shown for a truthy listed id; otherwise nothing |
| Dashboard.DashboardPage.DuplicateResume | static/js/dashboard.js:288-316 | for a listed id, posts "title (Copy)" and puts the server's copy first; otherwise nothing is sent |
| Dashboard.DashboardPage.DeleteResume | static/js/dashboard.js:318-344 | sends the DELETE exactly for a truthy listed id the user confirms; success drops every resume with the id |
| Dashboard.DeleteRemovesFound | static/js/dashboard.js:318-344 | a successful delete removes the found resume and keeps every resume with another id |
| ProfilePictureUpload.ValidateFile | frontend/src/components/ui/ProfilePictureUpload.js:13-28 | accepted exactly for an allowed image type of at most 5 MB; the type is checked first, each case with its message |
| ProfilePictureUpload.SizeBoundary | frontend/src/components/ui/ProfilePictureUpload.js:15-25 | 5242880 bytes is accepted and one byte more is refused |
| ProfilePictureUpload.TypeCheckedFirst | frontend/src/components/ui/ProfilePictureUpload.js:17-20 | a disallowed type is refused whatever the size |
| ProfilePictureUpload.Uploader.constructor | frontend/src/components/ui/ProfilePictureUpload.js:8-10 | no preview, no file, not uploading |
| ProfilePictureUpload.Uploader.HandleFileSelect | frontend/src/components/ui/ProfilePictureUpload.js:31-46 | no file does nothing; a refused file shows its message and clears the input; an accepted one becomes the preview |
| ProfilePictureUpload.Uploader.BeginUpload | frontend/src/components/ui/ProfilePictureUpload.js:49-57 | without a file, 'Please select a file first' and no upload; otherwise the file is uploaded and uploading starts |
| ProfilePictureUpload.Uploader.FinishUpload | frontend/src/components/ui/ProfilePictureUpload.js:56-72 | success clears the preview and the input and calls the success callback if there is one; uploading ends either way |
| ProfilePictureUpload.Uploader.HandleCancel | frontend/src/components/ui/ProfilePictureUpload.js:75-78 | the preview and the input are cleared |
| LoginForm.LoginPage.constructor | frontend/src/components/auth/LoginForm.js:11-16 | empty username and password, no errors |
| LoginForm.LoginPage.HandleSubmit | frontend/src/components/auth/LoginForm.js:18-42 | an error for a blank username (after trim) and for an empty password, with their messages and no others; `login` is called exactly when there is none |
| LoginForm.LoginPage.HandleChange | frontend/src/components/auth/LoginForm.js:44-57 | the field takes the value; its error, if shown, is cleared |
| LoginForm.SubmitErrors | frontend/src/components/auth/LoginForm.js:23-29 | an error exactly for a username that is all whitespace and exactly for an empty password, each with its message, and no other key |
| LoginForm.BlankUsernameNotPassword | frontend/src/components/auth/LoginForm.js:24-29 | any non-empty run of whitespace is refused as a username but accepted as a password |
| LoginForm.SubmitErrorsNone | frontend/src/components/auth/LoginForm.js:23-34 | the form goes through exactly when the username has a non-whitespace character and the password is not empty |
| CreateResumeModal.CreateDialog.constructor | frontend/src/components/dashboard/CreateResumeModal.js:7-9 | empty title, not loading, no error |
| CreateResumeModal.CreateDialog.BeginSubmit | frontend/src/components/dashboard/CreateResumeModal.js:11-21 | submits exactly for a title non-blank after trim (always when the button is enabled), passing the trimmed title; otherwise shows 'Resume title is required' |
| CreateResumeModal.CreateDialog.FinishSubmit | frontend/src/components/dashboard/CreateResumeModal.js:19-30 | success clears the title; failure shows the failure message; loading ends |
| CreateResumeModal.CreateDialog.HandleClose | frontend/src/components/dashboard/CreateResumeModal.js:32-36 | the title and the error are cleared and `onClose` is called once |
| CreateResumeModal.CreateDialog.HandleTitleChange | frontend/src/components/dashboard/CreateResumeModal.js:44-47 | the title takes the value and the error is cleared |

## Left out

- Rendering (JSX, jQuery HTML building, modals, spinners, navigation) is not modelled. Validation messages, the create failure and navigation or alert targets are returned; success and failure toasts are not modelled (the dashboard's load failure, its create, duplicate and delete success toasts, its duplicate and delete failure messages, and the resume editor's save and delete messages).
- The network and the Django REST backend are not modelled. Each awaited call is a parameter carrying its outcome.
- `Promise.all` in the two section loaders is taken as one atomic outcome, as if all requests settled together.
- `FileReader` is not modelled: the data URL it produces is a parameter.
- `window.confirm` is a boolean parameter.
- `Dashboard.RecentWindow`: `Date.now()` and `new Date(...)` parsing are replaced by integer milliseconds, so invalid dates (`NaN`) are not modelled.
- `updateProfile` and `updateProfilePicture` of the auth provider are not modelled; only their reducer action `UPDATE_PROFILE_SUCCESS` is.
- The `useEffect` hooks that start `loadUser` and the initial fetches are not modelled; callers invoke the methods.
- Common.TextOr: a header field that is truthy but not a string is read as `''`; the JavaScript would keep the non-string value.
- Dashboard.TitleText renders numbers and arrays as `""`. Only string, null, boolean, object and missing titles are spelled out.
- ResumeFilters.Digits treats only ASCII `0`-`9` as digits; Python's `\D` also keeps other Unicode decimal digits.
- ResumeFilters.PhoneFormat takes a string; `str(value)` of a non-string value is not modelled.
- ResumeFilters.FormatDateRange renders a year with `NatToString`; strftime may pad years below 1000 to four digits, depending on platform and version; the model does not pad.
- jQuery's `.data('id')` coercion of numeric ids is not modelled: ids are JSON values compared as given.
- A `select multiple` control, whose `val()` is an array, is not modelled; every non-checkbox value is text.
- `JSON.stringify` drops an `undefined` title, but the model sends a missing title as null.
- Object key order is not modelled where a form is a `map`. The header editor keeps the order, because its save reports keys in order.
- The dashboard handlers default their id argument to `selectedResumeId`. The model's callers always pass the id explicitly.
- UseResume.ResumeHook.ResetChanges: with a falsy `resumeId`, loading stays as it was, which is true from the start, as in the source.
- `handleFileSelect` sets the preview as soon as the file is accepted, so the asynchronous `FileReader` callback is taken as immediate.
- ResumeEditor.Editor.CancelHeader keeps `originalHeader` after cancelling, as the source does.
- ResumeEditor.Editor.SaveItem sends the corrected body `ItemBody`, not the body as written. `ItemBodyAsWritten` states the code's own body, and the Findings row below compares the two.
- AuthContext.AuthProvider.Login and AuthContext.AuthProvider.Register rethrow the original error object (AuthContext.js:129 and 144). The model returns only the message they dispatch, as `Err(message)`.
- AuthContext.AuthProvider.LoadUser takes the profile response as a parameter. `authAPI` (frontend/src/services/api.js:73-94) has no `getProfileData`, so in the source that call always throws. The profile is then empty, and `profile_pic`, `city` and `country` are null. This is the model's `profileResponse.Err?` case.
- ProfilePictureUpload.Uploader.FinishUpload models both outcomes of the upload. `authAPI` has no `updateProfilePicture` either (AuthContext.js:168), so in the source the upload always fails and the success branch is never reached.
- ExperienceSection.ExperienceEditor.FinishSave and SkillsSection.SkillsEditor.FinishSave model both outcomes of `onSave`. ResumeEditor.js:44-45 takes `saveExperienceSection` and `saveSkillsSection` from `useResume`, which does not return them (useResume.js:105-114). So in the source, `await onSave(...)` (ResumeExperienceSection.js:52, ResumeSkillsSection.js:48) always throws, and the saved branch is never reached.
- HeaderSection.HeaderEditor.HandleSave reports the form's `title`. The form reads `title` from the resume's own `title` (ResumeHeaderSection.js:10 and 55), not from `professional_title`, so a header save writes to the resume title. This is modelled as written.
- ResumeEditor.Editor.MarkAsSaved runs after every item save and delete (resume-editor.js:874-1107). It clears the unsaved-changes flag even when header edits have not yet been sent by `saveResume`. This is modelled as written.
- SectionList.Value holds only text and flags. A draft field holding a number or `null` cannot be represented.
- The Django views, models, serializers and the remaining UI files are not part of this model.

## Findings

| source | as written | input that shows it | evidently intended | confidence | as-written member | corrected member |
|---|---|---|---|---|---|---|
| static/js/resume-editor.js:888 | `getFormData` (lines 1167-1168) stores a checkbox as a boolean, and the experience save then sends `is_current: formData.is_current === 'on'`, which is always false | an experience item with the "currently working here" box ticked | send the checkbox's boolean, so a ticked box reaches the backend as `true` | not executed | ResumeEditor.IsCurrentNeverSent | ResumeEditor.IsCurrentSent |
