# Employee attendance app — a Dafny model

This project models the logic of a mobile employee-attendance app. It covers:

- **Record store** (`Database`): employees, attendance records and the signed-in session, kept
  under four keys of the device's key-value store.
- **Punch screen** (`Punch`): it derives whether the employee is punched in from today's
  records, offers the opposite punch, and completes a punch by saving a record with the
  location and photo and then flipping its status.
- **Admin panel** (`Admin`): it filters records by employee and calendar date, orders them
  newest first, exports them as CSV and shows four counts.
- **Photo validator** (`Camera`): the resolution and file-size rules, and the no-op compression.
- **Login screen** (`Login`): the PIN's digit filter, the submit guard, and the mock sign-in
  that derives a token from the clock and a name from the phone prefix.
- **Application shell** (`AppShell`): the current screen and session, the session restored at
  start-up, the navigation handlers, and the guard that decides whether the punch screen is
  rendered.

Where the source mutates state (the store, each screen's component state, the shell), the model
is a class whose methods state the whole new state. Pure rules are functions, and lemmas prove
their properties. Shared helpers (`Options`, `Seqs`, `Strings`) provide optional values,
first-match search, order-preserving filtering, and joining, splitting and decimal rendering of
strings.

Record timestamps are integer instants. Calendar dates and locale formatting are function
parameters (`dateOf`, `parseDay`, `formatDate`, `formatNumber`), so every result holds for any
date rendering. Storage failures enter as boolean parameters (`writeOk`, `tokenRemoveOk`, …).
A collection's JSON text is modelled by the list itself.

Three mismatches between files are modelled as written:

- The login screen calls `onLogin(token, name)` with two arguments. The shell's `handleLogin`
  takes three, so the employee id becomes `undefined`. `AppShell.SignInFromLoginScreen` proves
  that the page is then empty: the punch screen is selected but not rendered.
- The camera screen calls `onCapture()` without a photo. The punch completion then either
  reports that no location is available, or reads the missing photo's `uri`, throws, and
  reports failure. `Punch.PunchFromCameraScreen` proves which of the two happens and that such
  a punch never records anything.
- The shell passes `onAdminAccess` to the login screen (`App.tsx:94`), but the login screen's
  props take only `onLogin` (`LoginScreen.tsx:7-11`) and nothing calls it. No screen reaches
  the admin panel. `AppShell.App.HandleAdminAccess` models the handler, which no screen calls.

The CSV export is comma-separated but does not quote fields as section 2 of RFC 4180 describes.
Its Location field `lat, lon` contains a comma, and the en-US date text contains commas too
("Jan 15, 2024, 09:30 AM"). `Admin.DataRowSplit` proves what a data row reads back as at its
commas: the pieces of each field in turn. That is always at least six fields under a five-field
header, and eight with a date like the one above.

Further behaviour of the code that the model keeps:

- Login does not look up the employee or compare the PIN. It never fails with "not found" or
  "invalid credential", and it does not store the session through the record store.
- The punch's location wait is a fixed 5000 ms.
- Logging out from the punch screen calls `onLogout` only when clearing the stored session
  succeeded.
- The punch flow never calls the photo-quality validator.
- The newest-first ordering keeps records with equal timestamps in their stored order
  (`Admin.SortKeepsTies`), as the stable `Array.prototype.sort` does.

## Model

| member | source | states |
|---|---|---|
| Database.Upsert | EmployeeManagementSystem/services/DatabaseService.ts:39-45 | The list grows by at most one, holds the saved employee, and holds nothing but the saved employee and earlier entries |
| Database.UpsertExisting | EmployeeManagementSystem/services/DatabaseService.ts:39-42 | Saving an employee whose id is present replaces the first entry with that id at its index; the length and every other entry are unchanged |
| Database.UpsertNew | EmployeeManagementSystem/services/DatabaseService.ts:43-47 | Saving an employee with a new id appends it at the end, after the unchanged prior list |
| Database.UpsertFindable | EmployeeManagementSystem/services/DatabaseService.ts:36-47 | After saving, a search by id finds exactly the saved employee |
| Database.MarkSynced | EmployeeManagementSystem/services/DatabaseService.ts:134-137 | Same length; each record is either unchanged or a record with that id with `isSynced` set |
| Database.MarkSyncedChangesOneFlag | EmployeeManagementSystem/services/DatabaseService.ts:133-137 | Only the first record with the id gets `isSynced` set; the length and all other records are unchanged |
| Database.MarkSyncedUnknown | EmployeeManagementSystem/services/DatabaseService.ts:134-139 | For an id no record has, the list is unchanged |
| Database.MarkSyncedIdempotent | EmployeeManagementSystem/services/DatabaseService.ts:131-139 | Marking the same id twice equals marking it once |
| Database.TodayRecordsAfterSave | EmployeeManagementSystem/services/DatabaseService.ts:106-114 | After a record is appended, today's list for an employee gains that record at its end exactly when it belongs to that employee and that day, and is otherwise unchanged |
| Database.DatabaseService.constructor | EmployeeManagementSystem/services/DatabaseService.ts:25-33 | The store starts with the given well-formed contents |
| Database.DatabaseService.Employees | EmployeeManagementSystem/services/DatabaseService.ts:54-62 | A missing key reads as the empty list; otherwise the stored employee list |
| Database.DatabaseService.AttendanceRecords | EmployeeManagementSystem/services/DatabaseService.ts:86-94 | A missing key reads as the empty list; otherwise the stored record list |
| Database.DatabaseService.AuthToken | EmployeeManagementSystem/services/DatabaseService.ts:157-164 | A missing key reads as null; otherwise the stored token text |
| Database.DatabaseService.CurrentEmployeeId | EmployeeManagementSystem/services/DatabaseService.ts:166-173 | A missing key reads as null; otherwise the stored employee id text |
| Database.DatabaseService.EmployeeByPhone | EmployeeManagementSystem/services/DatabaseService.ts:64-72 | Returns the first employee whose phone number equals the argument; null exactly when no employee has it |
| Database.DatabaseService.RecordsByEmployee | EmployeeManagementSystem/services/DatabaseService.ts:96-104 | An order-preserving subsequence of all records that holds each record of that employee as often as stored, and no other record |
| Database.DatabaseService.TodayRecords | EmployeeManagementSystem/services/DatabaseService.ts:106-119 | A subsequence of the employee's records that holds each stored record of that employee dated today as often as stored, and no other record |
| Database.DatabaseService.UnsyncedRecords | EmployeeManagementSystem/services/DatabaseService.ts:121-129 | An order-preserving subsequence of all records that holds each unsynced record as often as stored, and no synced one |
| Database.DatabaseService.SaveEmployee | EmployeeManagementSystem/services/DatabaseService.ts:36-52 | On a successful write only the employee list changes, to its upsert; a failed write reports the error and changes nothing |
| Database.DatabaseService.SaveAttendanceRecord | EmployeeManagementSystem/services/DatabaseService.ts:75-84 | On a successful write the record list becomes the old list with the record appended and nothing else changes; a failed write reports the error and changes nothing |
| Database.DatabaseService.MarkRecordAsSynced | EmployeeManagementSystem/services/DatabaseService.ts:131-144 | A known id rewrites the list with the first match flagged; an unknown id performs no write and cannot fail |
| Database.DatabaseService.SaveAuthToken | EmployeeManagementSystem/services/DatabaseService.ts:147-155 | The token is written before the id; on success the getters return the token and the id; a failure leaves exactly the earlier writes |
| Database.DatabaseService.ClearAuth | EmployeeManagementSystem/services/DatabaseService.ts:175-183 | The token is removed before the id; on success both getters return null; the employee and record lists never change |
| Database.DatabaseService.ClearAllData | EmployeeManagementSystem/services/DatabaseService.ts:190-197 | On success the store is empty, so both lists read back as empty and both session getters as null; on failure nothing changes |
| Camera.ValidatePhotoQuality | EmployeeManagementSystem/services/CameraService.ts:89-114 | Reports the resolution issue iff width < 640 or height < 480, and the size issue iff base64 is present, non-empty and 3·length > 20971520. At most two issues, resolution before size, no other message. Valid iff there is no issue |
| Camera.CompressPhoto | EmployeeManagementSystem/services/CameraService.ts:116-120 | Returns the photo unchanged |
| Punch.StatusFromRecords | EmployeeManagementSystem/components/PunchScreen.tsx:54-61 | The status keeps today's records; a last punch type and time exist iff there is a record; punched in iff the last punch type is IN |
| Punch.NextPunchType | EmployeeManagementSystem/components/PunchScreen.tsx:138 | The offered punch is OUT iff the employee is punched in, and differs from the last punch of a consistent status |
| Punch.NewRecord | EmployeeManagementSystem/components/PunchScreen.tsx:140-153 | The record carries the fresh id, the employee, the name, the type, the instant, the location, the photo's uri, and is unsynced |
| Punch.AfterPunch | EmployeeManagementSystem/components/PunchScreen.tsx:159-164 | The punched-in flag flips, the last type and instant are the record's, and the record is appended to today's list |
| Punch.NoRecordsMeansPunchedOut | EmployeeManagementSystem/components/PunchScreen.tsx:24-29 | The initial status is the one an empty day derives, and it is consistent |
| Punch.StatusFromLastRecord | EmployeeManagementSystem/components/PunchScreen.tsx:53-61 | Punched in iff there are records today and the last is an IN; the last punch type and time are that record's type and instant, or null when there are no records |
| Punch.PunchKeepsConsistent | EmployeeManagementSystem/components/PunchScreen.tsx:159-166 | A punch of the offered type leaves the status exactly as reloading today's records, with the new one appended, would derive it |
| Punch.ReplayAlternates | EmployeeManagementSystem/components/PunchScreen.tsx:138-163 | Successive punches extend an alternating IN/OUT list by one record each, keep its prefix, and keep "punched in" equal to an odd record count |
| Punch.PunchesAlternateFromStart | EmployeeManagementSystem/components/PunchScreen.tsx:24-29 | From the initial status, n punches give n records alternating IN, OUT, IN, …, and leave the employee punched in iff n is odd |
| Punch.PunchScreen.constructor | EmployeeManagementSystem/components/PunchScreen.tsx:23-34 | The screen starts punched out with no records, no location and not loading |
| Punch.PunchScreen.LoadTodayAttendance | EmployeeManagementSystem/components/PunchScreen.tsx:51-66 | The status becomes the one derived from the store's records of today for this employee, and is consistent |
| Punch.PunchScreen.GetCurrentLocation | EmployeeManagementSystem/components/PunchScreen.tsx:68-75 | The held location becomes what the location service returned |
| Punch.PunchScreen.CompletePunch | EmployeeManagementSystem/components/PunchScreen.tsx:122-181 | Uses the held location, otherwise the fetched one. With no location: NoLocation and nothing changes. With no photo or a failed save: Failed and nothing changes. Otherwise the record (this employee, this name, the opposite type, the photo's uri, unsynced) is appended to the store first, then the status flips and gains the record. Loading is off at the end |
| Punch.PunchScreen.HandleLogout | EmployeeManagementSystem/components/PunchScreen.tsx:110-119 | The app is told to log out iff both removals succeed; the store loses the token and then the id, stopping at the first failed removal; after a logout no session is stored |
| Punch.PunchFromCameraScreen | EmployeeManagementSystem/App.tsx:75-83 | A completion called without a photo reports no location when none is held or fetched, and failure otherwise; it changes neither the status nor the store |
| Admin.InsertNewestFirst | EmployeeManagementSystem/components/AdminPanel.tsx:60-62 | Inserting yields the list's records plus exactly that record |
| Admin.InsertKeepsSorted | EmployeeManagementSystem/components/AdminPanel.tsx:60-62 | Inserting into a newest-first list keeps it newest first |
| Admin.SortNewestFirst | EmployeeManagementSystem/components/AdminPanel.tsx:60-62 | The ordering is non-increasing by timestamp and a permutation of its input |
| Admin.FilteredRecords | EmployeeManagementSystem/components/AdminPanel.tsx:43-63 | The listed records are newest first and are a permutation of the stored records that pass the employee filter (unless 'all') and the date filter (unless empty) |
| Admin.InsertKeepsTies | EmployeeManagementSystem/components/AdminPanel.tsx:60-62 | Among records of any one timestamp, insertion puts the new record first and keeps the others in order |
| Admin.SortKeepsTies | EmployeeManagementSystem/components/AdminPanel.tsx:60-62 | The ordering is stable: records with the same timestamp keep their stored relative order |
| Admin.FilteredRecordsMembership | EmployeeManagementSystem/components/AdminPanel.tsx:47-58 | A record is listed iff it is stored, has the selected employee id (or 'all' is selected) and falls on the selected date (or none is selected) |
| Admin.UnfilteredListsEverything | EmployeeManagementSystem/components/AdminPanel.tsx:43-62 | With 'all' and no date, every stored record is listed, as often as stored |
| Admin.EmployeeName | EmployeeManagementSystem/components/AdminPanel.tsx:75-78 | The name of the first employee with that id, or 'Unknown Employee' when that name is empty or no employee has the id |
| Admin.CsvRow | EmployeeManagementSystem/components/AdminPanel.tsx:84-90 | Five fields: the employee list's name, 'IN' iff a punch-in ('OUT' otherwise), the formatted date, `lat, lon`, and 'No' iff unsynced ('Yes' otherwise) |
| Admin.CsvData | EmployeeManagementSystem/components/AdminPanel.tsx:82-91 | The header row, then for each listed record in order a five-field row: name from the employee list, punch type, formatted date, `lat, lon`, Yes/No |
| Admin.CsvContent | EmployeeManagementSystem/components/AdminPanel.tsx:93 | With at least one row, the text splits at line breaks into the pieces of each row's comma-joined line in turn; when no field holds a line break, into exactly those lines |
| Admin.CsvLines | EmployeeManagementSystem/components/AdminPanel.tsx:93 | When no field holds a line break, the export splits into exactly one header line, which splits back into the header, and one line per listed record, each its row's fields joined with ',' |
| Admin.DataRowSplit | EmployeeManagementSystem/components/AdminPanel.tsx:83-93 | The header line splits into its five names; a data row splits into the pieces of its name, its type, the pieces of its date, of the latitude and of ' ' + longitude, and its Yes/No: never fewer than six fields |
| Admin.CsvIgnoresStoredName | EmployeeManagementSystem/components/AdminPanel.tsx:84-85 | The Employee column comes from the employee list: for every record the stored name never changes its row, and an unknown employee exports as 'Unknown Employee' |
| Admin.ExportFileName | EmployeeManagementSystem/components/AdminPanel.tsx:98 | With a date selected the file is `attendance_<date>.csv`; with none it is `attendance_all.csv` |
| Admin.Stats | EmployeeManagementSystem/components/AdminPanel.tsx:188-207 | Total Employees and Total Records are the two list lengths; Punch Ins and Unsynced are at most Total Records |
| Admin.StatsMatchExport | EmployeeManagementSystem/components/AdminPanel.tsx:194-205 | Punch Ins equals the number of exported rows whose type field is 'IN', and Unsynced the number whose Synced field is 'No' |
| Admin.AdminPanel.constructor | EmployeeManagementSystem/components/AdminPanel.tsx:14-18 | The panel starts with empty lists, 'all' employees, no date and not loading |
| Admin.AdminPanel.LoadData | EmployeeManagementSystem/components/AdminPanel.tsx:25-41 | Both lists become the store's current lists, and loading ends |
| Admin.AdminPanel.SelectEmployee | EmployeeManagementSystem/components/AdminPanel.tsx:146-148 | The employee selection becomes the chosen value |
| Admin.AdminPanel.SelectDate | EmployeeManagementSystem/components/AdminPanel.tsx:162-166 | The date selection becomes the chosen value |
| Admin.AdminPanel.GetFilteredRecords | EmployeeManagementSystem/components/AdminPanel.tsx:43-63 | Returns the filtered, newest-first records. With no filter applied, the in-place sort also reorders the panel's own record list, which keeps the same records |
| Admin.AdminPanel.ExportData | EmployeeManagementSystem/components/AdminPanel.tsx:80-103 | The download's name is the export file name and its text is the CSV of the filtered records; the state changes as in the filtering |
| Admin.AdminPanel.ClearAllData | EmployeeManagementSystem/components/AdminPanel.tsx:105-116 | Without confirmation, or when clearing fails, nothing changes, loading included; otherwise the store is emptied and the reload leaves both lists empty and loading off |
| Login.DigitsOnly | EmployeeManagementSystem/components/LoginScreen.tsx:63 | The PIN keeps exactly the digits of the input, in their order, each as often as it occurs |
| Login.DigitsOnlyIdempotent | EmployeeManagementSystem/components/LoginScreen.tsx:63 | Filtering a filtered PIN changes nothing |
| Login.DigitsOnlyKeepsDigits | EmployeeManagementSystem/components/LoginScreen.tsx:63 | An input made of digits passes through unchanged |
| Login.CanSubmit | EmployeeManagementSystem/components/LoginScreen.tsx:17 | A sign-in may start exactly when the phone number is non-empty and the PIN has four characters |
| Login.LoginDisabled | EmployeeManagementSystem/components/LoginScreen.tsx:69 | The button is disabled while loading, and enabled exactly when a sign-in may start and none is loading |
| Login.MockUserName | EmployeeManagementSystem/components/LoginScreen.tsx:25 | The name is 'Ramesh' iff the phone starts with '9876', and 'Employee' otherwise |
| Login.MockToken | EmployeeManagementSystem/components/LoginScreen.tsx:24 | The token is 'mock-jwt-token-' followed by a non-empty run of digits, without a leading zero unless the time is 0, whose decimal value is the sign-in time |
| Login.MockTokensDistinct | EmployeeManagementSystem/components/LoginScreen.tsx:24 | Tokens issued at different times differ |
| Login.LoginScreen.constructor | EmployeeManagementSystem/components/LoginScreen.tsx:12-14 | The screen starts with an empty phone number and PIN, not loading |
| Login.LoginScreen.ChangePhoneNumber | EmployeeManagementSystem/components/LoginScreen.tsx:51 | The phone number becomes the typed value as is |
| Login.LoginScreen.ChangePin | EmployeeManagementSystem/components/LoginScreen.tsx:63 | The PIN becomes the digits of the typed value |
| Login.LoginScreen.HandleLogin | EmployeeManagementSystem/components/LoginScreen.tsx:16-22 | A sign-in starts, capturing the phone number and setting loading, iff the phone is non-empty and the PIN has four characters; with the button enabled a sign-in always starts |
| Login.LoginScreen.CompleteMockLogin | EmployeeManagementSystem/components/LoginScreen.tsx:22-33 | The mock token and name are written to local storage and passed on, the same pair in both places, and loading ends; no employee is consulted |
| AppShell.Mounted | EmployeeManagementSystem/App.tsx:89-116 | Each screen renders its own component, except that the punch screen renders only with a non-empty token and a non-empty employee id; otherwise the page is empty |
| AppShell.Restored | EmployeeManagementSystem/App.tsx:26-38 | A session is restored iff the stored token and id are non-empty and an employee with that id exists; it carries the name of the first such employee and shows the punch screen |
| AppShell.AfterLogin | EmployeeManagementSystem/App.tsx:49-54 | The session holds the given token, name and id on the punch screen, which renders iff the token and the id are non-empty |
| AppShell.LoginWithoutIdShowsNothing | EmployeeManagementSystem/App.tsx:49-54 | A login callback without an employee id selects the punch screen but renders nothing |
| AppShell.LoginWithIdShowsPunch | EmployeeManagementSystem/App.tsx:98 | A login with a token and an id renders the punch screen iff both are non-empty |
| AppShell.LogoutShowsLogin | EmployeeManagementSystem/App.tsx:56-61 | After logout the login screen renders and no session is held |
| AppShell.App.constructor | EmployeeManagementSystem/App.tsx:13-16 | The shell starts on the login screen with no token, an empty name and an empty id |
| AppShell.App.CheckAuthStatus | EmployeeManagementSystem/App.tsx:24-47 | Restores the session when one is restored, without touching the store. When token and id are set but name nobody, the shell is unchanged and the two removals run in order. When either is missing, nothing changes |
| AppShell.App.HandleLogin | EmployeeManagementSystem/App.tsx:49-54 | The shell holds the given token, name and id, on the punch screen |
| AppShell.App.HandleLogout | EmployeeManagementSystem/App.tsx:56-61 | The shell returns to its initial values on the login screen |
| AppShell.App.HandleAdminAccess | EmployeeManagementSystem/App.tsx:63-65 | Only the screen changes, to admin |
| AppShell.App.HandleBackToApp | EmployeeManagementSystem/App.tsx:67-69 | Only the screen changes, to login |
| AppShell.App.HandleCameraCapture | EmployeeManagementSystem/App.tsx:71-73 | Only the screen changes, to camera |
| AppShell.App.HandlePhotoCapture | EmployeeManagementSystem/App.tsx:75-83 | Only the screen changes, back to punch |
| AppShell.App.HandleCameraCancel | EmployeeManagementSystem/App.tsx:85-87 | Only the screen changes, back to punch |
| AppShell.SignInFromLoginScreen | EmployeeManagementSystem/components/LoginScreen.tsx:31 | Signing in through the login screen leaves the punch screen selected with no employee id, so the page is empty |

## Left out

- Storage I/O: AsyncStorage and localStorage calls are modelled by a map, and JSON stringify/parse is taken to round-trip exactly.
- Database.DatabaseService.SaveEmployee: reads are infallible here, so the model misses that a failed read (which the getter turns into `[]`) makes the save overwrite the stored list with the single employee.
- Database.DatabaseService.SaveAttendanceRecord: the same failed-read case would overwrite the stored records with the new one alone; not modelled.
- Database.DatabaseService.MarkRecordAsSynced: a failed read yields `[]`, so the id looks unknown and nothing is written; the model has no failing reads.
- `getInstance` singletons: every component is handed the same store object.
- `generateId` (clock plus random digits): the punch receives the fresh id as a parameter.
- Date and time: `toDateString`, `toLocaleDateString`, `toLocaleTimeString`, time zones and the number formatting of coordinates are function parameters, and ISO-8601 timestamp text is an integer instant.
- Punch.PunchScreen.CompletePunch: the status keeps the punch instant where the source keeps its formatted time text, and the success toast's text is not modelled.
- Coordinates are reals, not IEEE doubles; they are only copied and formatted, never computed with.
- Camera.ValidatePhotoQuality: the size rule is exact integer arithmetic, which agrees with the source's floating-point computation because every divisor is a power of two and realistic string lengths are exact in a double.
- Location service (permissions, geocoding, the 5000 ms timeout race, distance checks): the punch takes the held or fetched location as an input.
- Camera screen and camera service permissions, capture, media library and availability calls: these are foreign calls with no logic of their own.
- The `window.completePunch` bridge between the shell and the punch screen is replaced by a direct call (`Punch.PunchFromCameraScreen`).
- The one-second login timer and the one-minute clock refresh: the timer's callback is its own method, and the clock has no effect on behaviour.
- The punch screen's `handleRefresh` only reruns the two loaders, which are modelled, and shows toasts.
- The PIN input's `maxLength={4}` is enforced by the input element, not by the code; `ChangePin` accepts any length.
- JSX rendering (other than the shell's render guard), toasts, `confirm` (an input to `ClearAllData`), and the Blob/URL/anchor download (`ExportData` returns the file name and text).
- Async sequencing is modelled as plain sequential calls; the loaders' catch branches only log.
