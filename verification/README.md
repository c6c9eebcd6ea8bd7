# HealthCare CMS front end — a verified model of its logic

The portal is a React single-page application with six kinds of user:
patient, doctor, reception staff, laboratory technician, pharmacist and
administrator. This project models the parts of the portal that decide
something, as opposed to the parts that only draw it:

- **The session and the role route guard** (`App`). The application holds one
  session cell, `currentUser`, in a `Session` class. `HandleLogin` and
  `HandleLogout` are the only methods that write it. The top-level route table
  is a function of the session and the requested path:
  - `/` shows the login gate to an anonymous visitor and redirects a
    signed-in user to `/<role>`;
  - `/<role>/...` mounts that role's workspace only for that role, and
    otherwise redirects to `/`;
  - any other path matches no route.

  Following redirects, a user who asks for another role's workspace lands on
  their own home screen after exactly two hops. An anonymous visitor lands on
  the gate. No screen of another user's workspace is ever shown.
- **The login screen** (`LoginScreen`):
  - the demo credential directory, partitioned by role;
  - the email and ten-digit phone validators, the email one proved equal to
    its regular expression;
  - the form-validity check;
  - the submit handler, which checks the role first, then the form, then
    looks for the first match in the selected role's partition only.

  Lemmas show that the hinted credentials sign in for every role, and that
  another role's credentials are rejected. A wrong password is rejected, and
  so is a malformed identifier, before any lookup. The `LoginForm` class
  holds the form's state cells and its handlers.
- **The workspace menus and sub-route tables** (`PatientPortal`,
  `DoctorDashboard`, `AdminDashboard`). Each menu starts at its workspace
  root. Every menu entry renders a page of its table, never the catch-all
  redirect, and the catch-all sends everything else to the root.
- **The appointment booking wizard** (`AppointmentBooking`). The `Wizard`
  class holds the step, the four selections and the `booked` flag. Its
  guarded transitions keep one invariant: the step stays in 1..4, each later
  step has the earlier steps' choices, and a booking has a doctor, a visit
  type, a date and a time slot. A booked confirmation always resolves an
  available doctor.
- **The back button** (`BackButton`). It is hidden on "dashboard" pathnames,
  and its click goes to the fallback path or one step back in the history.
  Lemmas tie it to the menus: it is hidden on each workspace root and shown
  on every other menu entry.

Shared building blocks:

- `Wrappers`: an `Option` type.
- `Search`: `find` / `findIndex` as first-match search.
- `Text`: the `\s` class, `trim`, `startsWith`, `endsWith` and `includes`.
- `Paths`: pathnames as segment sequences, with a proved parse/print round trip.
- `Roles`: the six roles and their path segments.

## Model

| member | source | states |
|---|---|---|
| Search.FindIndex | src/app/components/auth/LoginScreen.tsx:96-98 | `users.find` as an index: the element found satisfies the test and no earlier one does; nothing is found exactly when no element satisfies it |
| Search.Find | src/app/components/patient/AppointmentBooking.tsx:37-38 | `find` returns a value exactly when some element satisfies the test; the value is the first element, in table order, that satisfies it |
| Text.IncludesIffOccurs | src/app/components/shared/BackButton.tsx:17 | `includes` holds exactly when the part occurs at some position of the string |
| Text.IncludesInfix | src/app/components/shared/BackButton.tsx:17 | any string with the part inside it includes the part |
| Text.IncludesKeepsCharacters | src/app/components/shared/BackButton.tsx:17 | every character of an included part occurs in the whole string |
| Text.TrimStart | src/app/components/auth/LoginScreen.tsx:72-73 | the result is a suffix of the input; everything dropped is whitespace; the result does not start with whitespace |
| Text.TrimEnd | src/app/components/auth/LoginScreen.tsx:72-73 | the result is a prefix of the input; everything dropped is whitespace; the result does not end with whitespace |
| Text.TrimEmptyIffBlank | src/app/components/auth/LoginScreen.tsx:72-73 | `trim()` gives the empty string exactly when every character is whitespace |
| Paths.Split | src/app/App.tsx:26-97 | the segments read from a pathname are non-empty and hold no `/` |
| Paths.SplitFormat | src/app/App.tsx:26-97 | reading back the pathname of a well-formed path gives the same path |
| Roles.Parse | src/app/App.tsx:37-96 | a path segment names role R exactly when it equals R's string value |
| Roles.NameInjective | src/app/App.tsx:11 | distinct roles have distinct string values |
| Roles.AllRoles | src/app/App.tsx:11 | the role list holds every role, each once |
| PatientPortal.SubRoute | src/app/components/patient/PatientPortal.tsx:29-35 | the empty sub-path, and only it, renders the home page; every redirect goes to `/patient` |
| PatientPortal.MenuStartsAtRoot | src/app/components/patient/PatientPortal.tsx:15-20 | the menu has four entries and the first is `/patient`, which renders the home page |
| PatientPortal.MenuEntriesRender | src/app/components/patient/PatientPortal.tsx:15-34 | every menu entry is a path under `/patient` that renders its page rather than the catch-all; every page of the table is reached by the menu |
| PatientPortal.EntryRenders | src/app/components/patient/PatientPortal.tsx:15-34 | entry k of the menu renders page k |
| PatientPortal.BookEntryRenders | src/app/components/patient/PatientPortal.tsx:17 | `/patient/book` renders the booking page |
| PatientPortal.StatusEntryRenders | src/app/components/patient/PatientPortal.tsx:18 | `/patient/status` renders the status page |
| PatientPortal.ReportsEntryRenders | src/app/components/patient/PatientPortal.tsx:19 | `/patient/reports` renders the reports page |
| PatientPortal.CatchAllSettles | src/app/components/patient/PatientPortal.tsx:34 | an unlisted sub-path redirects to `/patient`, which renders the home page |
| DoctorDashboard.SubRoute | src/app/components/doctor/DoctorDashboard.tsx:25-29 | the empty sub-path, and only it, renders the schedule; every redirect goes to `/doctor` |
| DoctorDashboard.MenuStartsAtRoot | src/app/components/doctor/DoctorDashboard.tsx:13-16 | the menu has two entries and the first is `/doctor`, which renders the schedule |
| DoctorDashboard.MenuEntriesRender | src/app/components/doctor/DoctorDashboard.tsx:13-28 | every menu entry is a path under `/doctor` that renders its page; both pages are reached |
| DoctorDashboard.PrescribeEntryRenders | src/app/components/doctor/DoctorDashboard.tsx:15 | `/doctor/prescribe` renders the prescription page |
| DoctorDashboard.CatchAllSettles | src/app/components/doctor/DoctorDashboard.tsx:28 | an unlisted sub-path redirects to `/doctor`, which renders the schedule |
| AdminDashboard.SubRoute | src/app/components/admin/AdminDashboard.tsx:24-28 | the empty sub-path, and only it, renders role management; every redirect goes to `/admin` |
| AdminDashboard.MenuStartsAtRoot | src/app/components/admin/AdminDashboard.tsx:12-15 | the menu has two entries and the first is `/admin`, which renders role management |
| AdminDashboard.MenuEntriesRender | src/app/components/admin/AdminDashboard.tsx:12-27 | every menu entry is a path under `/admin` that renders its page; both pages are reached |
| AdminDashboard.SettingsEntryRenders | src/app/components/admin/AdminDashboard.tsx:14 | `/admin/settings` renders the settings placeholder |
| AdminDashboard.CatchAllSettles | src/app/components/admin/AdminDashboard.tsx:27 | an unlisted sub-path redirects to `/admin`, which renders role management |
| App.Route | src/app/App.tsx:26-97 | the gate only for an anonymous visitor at `/`; a workspace only for the signed-in user of that role; redirects only to `/` or the user's own root; no route exactly for a first segment that names no role |
| App.GateRoute | src/app/App.tsx:27-36 | `/` is the gate when nobody is signed in, and a redirect to `/<role>` otherwise |
| App.PrefixRoute | src/app/App.tsx:37-96 | `/R/...` mounts R's workspace, with the user's name and the rest of the path, if and only if the session role is R; otherwise it redirects to `/` |
| App.Mount | src/app/App.tsx:37-96 | a mounted workspace shows only its own user's screens, and its catch-all redirects to its own root |
| App.Render | src/app/App.tsx:26-97 | a workspace screen is shown only to its own signed-in user, and the gate only to an anonymous visitor |
| App.RootRendersHome | src/app/App.tsx:37-96 | a signed-in user's own root renders their home screen at once |
| App.CrossRoleTwoHops | src/app/App.tsx:27-96 | another role's prefix redirects to `/`, then to the user's own root, and after two hops shows the user's home screen |
| App.AnonymousReachesGate | src/app/App.tsx:27-96 | for an anonymous visitor every role prefix leads to the gate after one redirect |
| App.UnknownPathIsBlank | src/app/App.tsx:26-97 | a path that is neither `/` nor under a role prefix shows neither the gate nor a workspace, whoever is signed in |
| App.SettlesWithinTwoHops | src/app/App.tsx:26-97 | every path settles within two redirects, on the gate, the blank page or a screen of the signed-in user's own workspace |
| App.VisitNeverCrossesRoles | src/app/App.tsx:26-97 | after any number of redirects, no screen of another user's workspace appears |
| App.PatientMenuReachable | src/app/App.tsx:37-46 | each patient menu entry renders its page for a signed-in patient with no redirect |
| App.PatientEntryReachable | src/app/App.tsx:37-46 | a patient menu entry that renders a page inside the workspace renders it through the top-level table too |
| App.DoctorMenuReachable | src/app/App.tsx:57-66 | each doctor menu entry renders its page for a signed-in doctor with no redirect |
| App.DoctorEntryReachable | src/app/App.tsx:57-66 | a doctor menu entry that renders a page inside the workspace renders it through the top-level table too |
| App.AdminMenuReachable | src/app/App.tsx:87-96 | each administrator menu entry renders its page for a signed-in administrator with no redirect |
| App.AdminEntryReachable | src/app/App.tsx:87-96 | an administrator menu entry that renders a page inside the workspace renders it through the top-level table too |
| App.Session.constructor | src/app/App.tsx:14 | the session starts empty |
| App.Session.HandleLogin | src/app/App.tsx:16-18 | the session becomes exactly `{role, name}`, whatever it held |
| App.Session.HandleLogout | src/app/App.tsx:20-22 | the session becomes empty; on an empty session nothing changes |
| App.Session.Navigate | src/app/App.tsx:24-99 | resolving a path reads the session without writing it, and never shows another user's workspace |
| LoginScreen.MockUsers | src/app/components/auth/LoginScreen.tsx:17-42 | each role's partition holds two accounts, the email one then the phone one, sharing one password and one name |
| LoginScreen.DirectoryTable | src/app/components/auth/LoginScreen.tsx:17-42 | the directory holds exactly the twelve listed records, two per role, in order |
| LoginScreen.ValidateEmail | src/app/components/auth/LoginScreen.tsx:59-62 | the first `@` splits the string into a non-empty local part and a domain, neither holding whitespace or `@`, with a dot strictly inside the domain; an accepted string holds `@` and has at least five characters |
| LoginScreen.ValidatePhone | src/app/components/auth/LoginScreen.tsx:64-67 | exactly ten characters, each a digit `0`-`9`; an accepted string holds no `@` |
| LoginScreen.ValidateEmailMatchesPattern | src/app/components/auth/LoginScreen.tsx:59-62 | `validateEmail` accepts exactly the strings `^[^\s@]+@[^\s@]+\.[^\s@]+$` matches |
| LoginScreen.EmailHasSplit | src/app/components/auth/LoginScreen.tsx:59-62 | an accepted address splits into local part, `@`, domain name, `.`, and suffix, none empty or holding whitespace or `@` |
| LoginScreen.SplitIsEmail | src/app/components/auth/LoginScreen.tsx:59-62 | a string that splits that way is accepted |
| LoginScreen.NoAtIsNotEmail | src/app/components/auth/LoginScreen.tsx:59-62 | a string without `@` is never an email address |
| LoginScreen.PhoneIsNotEmail | src/app/components/auth/LoginScreen.tsx:59-67 | no string passes both validators |
| LoginScreen.IsFormValid | src/app/components/auth/LoginScreen.tsx:69-76 | a role is selected, the trimmed identifier and password are non-blank, and the identifier is an email address or a phone number; a valid form has a non-empty identifier and password |
| LoginScreen.ValidIdentifierNotBlank | src/app/components/auth/LoginScreen.tsx:69-76 | an identifier of either format is non-blank after trimming |
| LoginScreen.DemoEmailValid | src/app/components/auth/LoginScreen.tsx:59-62 | `<local>@demo.com` is a valid email address for any well-formed local part |
| LoginScreen.Lookup | src/app/components/auth/LoginScreen.tsx:95-98 | the index found matches both identifier and password exactly and no earlier account does; nothing is found exactly when no account of the list matches |
| LoginScreen.Toast | src/app/components/auth/LoginScreen.tsx:81-104 | the greeting `Welcome back, <name>!` on success, and one fixed message for each of the three failures |
| LoginScreen.ToastsTellOutcomes | src/app/components/auth/LoginScreen.tsx:81-104 | a toast is a greeting exactly on success, and equal error toasts come from the same failure |
| LoginScreen.Submit | src/app/components/auth/LoginScreen.tsx:78-109 | the missing role is reported first and exactly when no role is selected; the form error exactly when a role is selected and the form is invalid; no match exactly when the form is valid and no account of the selected role matches; a sign-in uses the selected role and the name of its first matching account |
| LoginScreen.HintIsFirstAccount | src/app/components/auth/LoginScreen.tsx:224-225 | the hinted email and password are the credentials of each role's first account |
| LoginScreen.PasswordNotBlank | src/app/components/auth/LoginScreen.tsx:225 | both hinted passwords are non-blank after trimming |
| LoginScreen.IdentifierFormats | src/app/components/auth/LoginScreen.tsx:17-42 | each role's email passes the email validator and its phone number the phone validator |
| LoginScreen.IdentifiersDistinct | src/app/components/auth/LoginScreen.tsx:17-42 | no email equals a phone number, and no two roles share an email or a phone number |
| LoginScreen.DirectoryWellFormed | src/app/components/auth/LoginScreen.tsx:69-76 | every account's credentials pass the form check under its own role |
| LoginScreen.SubmitFirstMatch | src/app/components/auth/LoginScreen.tsx:95-102 | a valid form that matches account k and no earlier one signs in with account k's name |
| LoginScreen.ListedAccountsSignIn | src/app/components/auth/LoginScreen.tsx:95-102 | every account of the directory signs in under its own role with that role's name |
| LoginScreen.EarlierAccountsDiffer | src/app/components/auth/LoginScreen.tsx:17-42 | no account repeats an earlier account's identifier within its partition |
| LoginScreen.HintSignsIn | src/app/components/auth/LoginScreen.tsx:224-225 | the hinted credentials sign in for every role |
| LoginScreen.CrossRoleRejected | src/app/components/auth/LoginScreen.tsx:95-98 | another role's credentials, though well-formed, are rejected with the no-match error |
| LoginScreen.ForeignIdentifier | src/app/components/auth/LoginScreen.tsx:17-42 | an identifier of one partition occurs in no other partition |
| LoginScreen.WrongPasswordRejected | src/app/components/auth/LoginScreen.tsx:96-98 | a password other than the role's own is rejected, whatever the identifier |
| LoginScreen.AdminPhoneWithDemoPasswordRejected | src/app/components/auth/LoginScreen.tsx:38-41 | `9876543215` with `demo123` under the administrator role is rejected with the no-match error |
| LoginScreen.MissingRoleFirst | src/app/components/auth/LoginScreen.tsx:81-84 | with no role selected the submission fails on the role, whatever was typed |
| LoginScreen.MalformedIdentifierRejected | src/app/components/auth/LoginScreen.tsx:86-89 | an identifier without `@` whose length is not ten fails the form check before any lookup |
| LoginScreen.QuickAccessMatchesDirectory | src/app/components/auth/LoginScreen.tsx:238-279 | the quick-access buttons cover the roles in order, and each name is the one that role's accounts carry |
| LoginScreen.LoginForm.constructor | src/app/components/auth/LoginScreen.tsx:45-47 | no role is selected and both fields are empty |
| LoginScreen.LoginForm.SelectRole | src/app/components/auth/LoginScreen.tsx:144 | the selector sets the role and leaves the fields alone |
| LoginScreen.LoginForm.TypeEmailOrPhone | src/app/components/auth/LoginScreen.tsx:177-179 | the identifier field changes only when a role is selected |
| LoginScreen.LoginForm.TypePassword | src/app/components/auth/LoginScreen.tsx:205-207 | the password field changes only when a role is selected |
| LoginScreen.LoginForm.HandleLogin | src/app/components/auth/LoginScreen.tsx:78-109 | the toast is the one for the submission's outcome; the session becomes the signed-in user on success, and otherwise stays as it was |
| LoginScreen.LoginForm.HandleQuickLogin | src/app/components/auth/LoginScreen.tsx:111-114 | it greets the given name and sets the session to the given role and name, with no check |
| BackButton.HandleBack | src/app/components/shared/BackButton.tsx:20-26 | the click navigates to the fallback path exactly when it is given and non-empty, and otherwise goes one step back |
| BackButton.IsDashboard | src/app/components/shared/BackButton.tsx:15-18 | the pathname is `/`, ends in `/`, includes `/dashboard` or ends in `/` and a role name (not anchored at the start); every such pathname holds a `/` |
| BackButton.Render | src/app/components/shared/BackButton.tsx:10-41 | nothing is rendered exactly on a dashboard pathname; otherwise the button runs `handleBack` and its caption is the given label, or `Back` when none is given |
| BackButton.FallbackAndLabelDefaults | src/app/components/shared/BackButton.tsx:10-26 | an empty fallback path counts as none, while an empty label is kept |
| BackButton.TrailingSlashHidden | src/app/components/shared/BackButton.tsx:15-16 | hidden on `/` and on every pathname that ends in `/` |
| BackButton.DashboardHidden | src/app/components/shared/BackButton.tsx:17 | hidden on every pathname that contains `/dashboard` |
| BackButton.RoleSegmentHidden | src/app/components/shared/BackButton.tsx:18 | hidden on every pathname that ends in `/<role>`, whatever comes before it |
| BackButton.SubPageShown | src/app/components/shared/BackButton.tsx:15-18 | shown on `<prefix>/<seg>` when the last segment is non-empty, holds no `/`, names no role, and the pathname does not include `/dashboard` |
| BackButton.NoDashboardWithoutH | src/app/components/shared/BackButton.tsx:17 | a pathname without the letter `h` never includes `/dashboard` |
| BackButton.RootHidesBack | src/app/components/shared/BackButton.tsx:18 | hidden on every workspace root `/<role>` |
| BackButton.EntryShowsBack | src/app/components/shared/BackButton.tsx:15-18 | shown on `/<root>/<seg>` when `seg` is non-empty, holds no `/`, names no role, and the pathname does not include `/dashboard` |
| BackButton.PatientMenuBack | src/app/components/shared/BackButton.tsx:15-18 | hidden on the first patient menu entry and shown on the other three |
| BackButton.PatientEntryBack | src/app/components/shared/BackButton.tsx:15-18 | shown on every patient menu entry after the first |
| BackButton.DoctorMenuBack | src/app/components/shared/BackButton.tsx:15-18 | hidden on the first doctor menu entry and shown on the second |
| BackButton.AdminMenuBack | src/app/components/shared/BackButton.tsx:15-18 | hidden on the first administrator menu entry and shown on the second |
| AppointmentBooking.SelectableDoctors | src/app/components/patient/AppointmentBooking.tsx:10-14 | exactly doctors `1` and `2` can be chosen; doctor `3` is unavailable |
| AppointmentBooking.FindDoctor | src/app/components/patient/AppointmentBooking.tsx:37 | a doctor is found exactly when one has the id, and the one found has it |
| AppointmentBooking.FindVisitType | src/app/components/patient/AppointmentBooking.tsx:38 | a visit type is found exactly when one has the id, and the one found has it |
| AppointmentBooking.FindDoctorUnique | src/app/components/patient/AppointmentBooking.tsx:10-14 | looking up a doctor's id finds that doctor |
| AppointmentBooking.SelectableFound | src/app/components/patient/AppointmentBooking.tsx:106-111 | the doctor found for a choosable id is an available one |
| AppointmentBooking.NextEnabled | src/app/components/patient/AppointmentBooking.tsx:127-198 | Continue is enabled on step 1 with a doctor, on step 2 with a visit type and on step 3 with a date; no other step has it |
| AppointmentBooking.Confirm | src/app/components/patient/AppointmentBooking.tsx:37-38 | for a choosable doctor the card shows that available doctor; the visit type appears exactly when its id is offered |
| AppointmentBooking.Wizard.constructor | src/app/components/patient/AppointmentBooking.tsx:23-28 | step 1, every selection empty, not booked, and the invariant holds |
| AppointmentBooking.Wizard.SelectDoctor | src/app/components/patient/AppointmentBooking.tsx:106-111 | on step 1 only an available doctor can be chosen; nothing else changes and the invariant is kept |
| AppointmentBooking.Wizard.SelectVisitType | src/app/components/patient/AppointmentBooking.tsx:147-150 | on step 2 only an offered visit type can be chosen; nothing else changes |
| AppointmentBooking.Wizard.SelectDate | src/app/components/patient/AppointmentBooking.tsx:184-190 | on step 3 the calendar sets or clears the date; nothing else changes |
| AppointmentBooking.Wizard.SelectTime | src/app/components/patient/AppointmentBooking.tsx:213-216 | on step 4 only one of the ten slots can be chosen; nothing else changes |
| AppointmentBooking.Wizard.Continue | src/app/components/patient/AppointmentBooking.tsx:127-198 | the step advances from 1, 2 or 3 only when that step's choice is made; no selection changes and the step stays in 1..4 |
| AppointmentBooking.Wizard.Back | src/app/components/patient/AppointmentBooking.tsx:164-230 | the step goes back from 2, 3 or 4 unconditionally and clears nothing |
| AppointmentBooking.Wizard.HandleBookAppointment | src/app/components/patient/AppointmentBooking.tsx:32-34 | booking happens only on step 4 with a time chosen, and changes nothing but `booked` |
| AppointmentBooking.Wizard.BookAnother | src/app/components/patient/AppointmentBooking.tsx:67 | after a booking, back to step 1 and not booked, with every selection kept |
| AppointmentBooking.Wizard.Summary | src/app/components/patient/AppointmentBooking.tsx:36-38 | once booked, both lookups succeed, the doctor is available, and a date and a listed time are shown |

## Left out

- Markup, styling, icons and the toast widget are not modelled. The toast text is returned as a string.
- The one-second `setTimeout` before the credential lookup and the `isLoading` flag are not modelled. The lookup happens at once, and the disabled state of the submit button while loading is not modelled.
- React Router's internals are not modelled: case-insensitive matching, `replace`, the history stack behind `navigate(-1)`, and the normalisation of repeated or trailing slashes. `Paths.Split` drops empty segments instead.
- The clock is not modelled: the calendar's rule that disables past days, `new Date()` and `toLocaleDateString`. A date is an opaque `Date` value, and the calendar may hand the wizard any date or none.
- The staff, laboratory and pharmacy dashboards, `DashboardLayout` and the pages the menus lead to are not part of this model. The three dashboards appear as opaque workspace screens, and the user name and logout action are not followed into the layout.
- `PatientHome` holds only markup and links, so it is not modelled.
- `roleHelperText`, the forgot-password link and the "Back to Home" link are display text only.
- Only the `\s` code points listed in `Text.IsSpace` are whitespace. Strings are sequences of code points, not UTF-16 code units.
- The lookup's identifier test compares the identifier with the stored value twice, joined by `||`. The model compares once, which is the same test.
- `null` as a role is not modelled. The code never signs in with it, so `Role` has six cases.
- There is no cancellation or supersession of pending sign-in attempts, because the code has none.
- The UI makes some calls impossible: a control that is not on screen, a disabled radio item or a disabled button. The model turns such calls into no-ops, so every handler can be called in any state. The sign-in handler is the exception described next.
- LoginScreen.LoginForm.HandleLogin may be called with an invalid form, which the disabled Sign In button prevents in the UI. It models `handleLogin`'s own role and form checks, so the `RoleMissing` and `FieldsInvalid` outcomes are reached only by calling the handler directly.
- LoginScreen.LoginForm.HandleLogin has no `isLoading` state. A second submission while the first waits is not modelled.
