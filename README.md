# Clinic management client — session, appointment and list rules

This project models the logic inside the React Native client of a clinic
management app. The client keeps a signed-in session in the device's
key-value store. Its HTTP client attaches that session to every request.
Its screens let patients book and view appointments, and let administrators
confirm, cancel, reschedule and delete appointments, browse treatments and
equipment, edit a treatment, and work through patient feedback.

Each core source file becomes one Dafny module:

- **Values.** Appointments, treatments, equipment, feedback items and token
  claims are datatypes.
- **The store.** The device store (`AsyncStorage`) is a `Store` class over
  a `map<string, string>`. A run of awaited writes that stops at the first
  one that throws is the function `Storage.RunOps`.
- **Screens.** Each screen whose handlers update React state is a class:
  the state hooks are its fields, and its methods have `modifies` frames.
- **The outside world.** HTTP responses, storage failures, the current hour
  and the platform are method parameters. Requests, alerts and navigation
  are method results.
- **Token decoding.** It is a `Decoder` parameter, a function from the token
  to optional claims, where `None` stands for the decoder throwing.
- **JavaScript truthiness.** It is written out: `Common.Truthy` for strings
  (`null` and `''` are falsy) and `Common.TruthyId` for numeric ids
  (`null` and `0` are falsy).
- **Shared helpers.** `Numbers` covers `${n}`, `parseInt(s, 10)` and
  `Number(s)` on integers. `TextSearch` covers ASCII `toLowerCase` and
  `includes`.

Two behaviours of the code shape the model:

- The interceptor sets the `Authorization` header inside the same `try` as
  the token decoding and the role write. So a token that fails to decode,
  or a role write that throws, leaves the request without the header.
- `userInfo` does not turn a malformed token into "signed out". The decoder's
  exception reaches the caller, and `getUserName` throws when no token is
  stored.

## Model

| member | source | states |
|---|---|---|
| Session.UserInfo | utils/user.ts:4-14 | returns null exactly when the stored token is missing or empty; throws exactly when a truthy token fails to decode; otherwise returns that token's decoded claims |
| Session.GetUserName | utils/user.ts:16-20 | returns a value exactly when a truthy token decodes, and that value is the `name` claim; a missing token or a decoding failure throws |
| Session.SelectGreetings | utils/user.ts:22-30 | 'Bom dia' iff 0 <= hour < 12, 'Boa tarde' iff 12 <= hour < 18, 'Boa noite' for every other hour, negative ones included |
| Storage.Lookup | utils/user.ts:5 | `getItem` gives a value exactly when the key is stored, and that value is the stored one |
| Storage.RunOps | screens/LoginScreen.tsx:33-35 | a run whose first call throws changes nothing, and every key the run adds was set by one of its calls |
| Storage.RunOpsFrame | screens/LoginScreen.tsx:33-35 | a key that no write in a sequence names keeps its entry, wherever the sequence stops |
| Storage.RunOpsLastWrite | screens/ProfileScreen.tsx:30-32 | when no call fails, the last set or remove that names a key decides whether it is stored and with what value |
| Storage.Store.GetItem | utils/user.ts:5 | returns the stored value or null and changes nothing |
| Storage.Store.SetItem | screens/LoginScreen.tsx:33 | a successful set overwrites one key; a failing one changes nothing |
| Storage.Store.RemoveItem | screens/ProfileScreen.tsx:30 | a successful remove deletes one key; a failing one changes nothing |
| Api.BearerValue | services/api.ts:28 | the header value is "Bearer " followed by the token, character for character |
| Api.RoleToStore | services/api.ts:19-25 | a role is copied exactly when a truthy token decodes with a truthy `role` claim, and it is that claim |
| Api.InterceptedItems | services/api.ts:22-25 | only `userRole` can change, and only to the decoded role; no role, or a failing write, leaves the store as it was |
| Api.InterceptedHeaders | services/api.ts:16-31 | `Authorization` becomes the bearer value when a truthy token decodes and the role write does not throw; no token, a decoding failure or a role write that throws leaves every header as it was; other headers are never touched |
| Api.InterceptRequest | services/api.ts:12-35 | the callback returns the same config, leaves the store as `InterceptedItems` and the headers as `InterceptedHeaders` describe, and catches every failure |
| Api.InterceptorKeepsSession | services/api.ts:14-34 | the interceptor never writes or removes `userToken`, `userName` or `userId` |
| Numbers.IntString | screens/LoginScreen.tsx:35 | `${id}` is non-empty and starts with '-' exactly for negative ids |
| Numbers.ToNumber | screens/CreateAppointmentScreen.tsx:67 | `Number(null)` and `Number('')` are 0; a run of digits with an optional leading '+' or '-' reads as its signed decimal value; text starting with any other non-digit is NaN |
| Numbers.ToNumberOfIntString | screens/LoginScreen.tsx:35 | the id stored as `${id}` reads back as the same id through `Number` |
| Numbers.ParseIntOfDigits | screens/AdminEditTreatmentScreen.tsx:47 | `parseInt` of a run of digits is its decimal value |
| Numbers.ParseIntOfNegativeDigits | screens/AdminEditTreatmentScreen.tsx:47 | `parseInt` of '-' followed by digits is the negated decimal value |
| Numbers.ParseInt | screens/AdminEditTreatmentScreen.tsx:47 | `parseInt` of the empty text is NaN, and text starting with a digit parses to a non-negative number |
| Numbers.ParseIntOfIntString | screens/AdminEditTreatmentScreen.tsx:30-47 | `parseInt(n.toString(), 10)` is `n` for every integer of the model (see the number line under Left out) |
| Login.FieldsFilled | screens/LoginScreen.tsx:20 | the form may be submitted iff both the email and the password are truthy |
| Login.LoginOps | screens/LoginScreen.tsx:33-35 | a successful login makes three sets, in the order token, name, id |
| Login.LoginStoresSession | screens/LoginScreen.tsx:33-35 | after the three writes succeed, the store holds the access token, the user's name and the decimal id; the id reads back as the user's id; every other key, `userRole` included, is unchanged |
| Login.LoginThenUserInfo | screens/LoginScreen.tsx:33 | after a login, `userInfo` returns null for an empty token and otherwise resolves the new token, to its claims or to a throw |
| Login.LoginScreen.constructor | screens/LoginScreen.tsx:15-17 | empty email and password, not loading |
| Login.LoginScreen.HandleLogin | screens/LoginScreen.tsx:19-47 | an empty email or password alerts and changes nothing; otherwise the credentials are posted and `loading` is set true then false; a failed request writes nothing; a write failure keeps the earlier writes; the app goes to the dashboard only after all three writes, and any failure shows the login alert |
| Profile.LogoutOps | screens/ProfileScreen.tsx:30-32 | a logout makes three removals, in the order token, role, name |
| Profile.HandleLogout | screens/ProfileScreen.tsx:28-38 | the token, the role and the name are removed in that order, stopping at the first failing removal; the app goes to Login only when all three succeed, and otherwise the logout alert is shown |
| Profile.LogoutEndsSession | screens/ProfileScreen.tsx:30-32 | a completed logout removes the three keys, keeps `userId` and every other key, and leaves `userInfo` returning null |
| Profile.PermissionLabel | screens/ProfileScreen.tsx:68 | 'Administrador' iff the role is 'admin'; 'Usuário' for any other role and for null |
| Appointments.WithCalendarDate | screens/EditAppointmentScreen.tsx:62-64 | takes year, month and day from the picked value and keeps hour and minute |
| Appointments.WithTimeOfDay | screens/CreateAppointmentScreen.tsx:133-136 | takes hour and minute from the picked value and keeps the calendar date |
| Appointments.StatusBadges | components/AppointmentListAdmin.tsx:87-101 | each of the three statuses shows exactly its own badge, and any other string shows none; the user card at components/AppointmentListUser.tsx:51-65 has the same three conditionals |
| Common.Filter | screens/DashboardScreen.tsx:143 | `.filter` keeps exactly the elements that pass the test, every copy of each, in list order |
| Dashboard.WithStatus | screens/DashboardScreen.tsx:143-145 | a tab holds exactly the appointments with its status, every copy of each, in list order |
| Dashboard.TabsPartition | screens/DashboardScreen.tsx:143-145 | when every status is valid, the lengths of the three tabs sum to the list's length, so no appointment is lost or shown twice |
| Dashboard.TabsPartitionMultiset | screens/DashboardScreen.tsx:143-145 | when every status is valid, the three tabs together hold each appointment exactly as often as the list does |
| Dashboard.InExactlyOneTab | screens/DashboardScreen.tsx:143-145 | an appointment with a valid status lies in exactly one tab |
| Dashboard.InlineGreeting | screens/DashboardScreen.tsx:57-65 | the dashboard's own greeting rule agrees with `selectGreetings` for every hour |
| Dashboard.RenderAppointment | screens/DashboardScreen.tsx:147-153 | role 'admin' draws the admin card and any other role, null included, draws the user card, always for the same appointment |
| Dashboard.DashboardScreen.constructor | screens/DashboardScreen.tsx:45-52 | no appointments, not loading, no error, no role; the name 'Usuário', the default gravatar avatar and the greeting 'Olá,' |
| Dashboard.DashboardScreen.FetchAppointments | screens/DashboardScreen.tsx:79-92 | `error` is set exactly when the fetch fails; a failure keeps the old list and shows an alert; `loading` ends false |
| Dashboard.DashboardScreen.GetUserInfo | screens/DashboardScreen.tsx:56-77 | the greeting follows the hour; decoded claims set the role, name and avatar; a null user or a throw shows an alert and keeps all three |
| Dashboard.DashboardScreen.ChangeStatus | screens/DashboardScreen.tsx:105-125 | confirm sends 'confirmed' and cancel sends 'canceled'; the list is fetched again only when the patch succeeds; a failed patch shows its own alert and leaves the state alone |
| Dashboard.DashboardScreen.Delete | screens/DashboardScreen.tsx:127-134 | sends the deletion; fetches the list again only when it succeeds; a failure alerts and changes nothing |
| AppointmentListAdmin.RenderActions | components/AppointmentListAdmin.tsx:38-76 | Edit iff the status is valid; Confirm iff pending; Cancel iff pending or confirmed; Delete iff canceled; Edit carries the appointment and the others its id; 3, 2 or 0 buttons |
| AppointmentListAdmin.ActionTable | components/AppointmentListAdmin.tsx:39-74 | pending gives [Confirm, Edit, Cancel], confirmed [Edit, Cancel], canceled [Edit, Delete], in that order |
| AppointmentListAdmin.ConfirmingNarrowsActions | components/AppointmentListAdmin.tsx:39-63 | confirming a pending appointment leaves Edit and Cancel on its card and removes Confirm |
| AppointmentListUser.CategoryPieces | components/AppointmentListUser.tsx:35-37 | the `map` renders one piece per category |
| AppointmentListUser.Names | components/AppointmentListUser.tsx:35-37 | the names of the categories, in order |
| AppointmentListUser.CategoryText | components/AppointmentListUser.tsx:35-37 | the category line is the names joined by ", ": empty for no categories, the bare name for one |
| AppointmentListUser.CategoryTextIsJoin | components/AppointmentListUser.tsx:35-37 | the category line equals the names joined by ", ", with no trailing separator; no categories give the empty text and one category gives just its name |
| AppointmentListUser.PriceLine | components/AppointmentListUser.tsx:46-48 | "Pago " and the price when confirmed; the bare price when pending; an empty line when canceled; no line for any other status |
| AppointmentListUser.BadgeMatchesPriceLine | components/AppointmentListUser.tsx:46-65 | a card shows one badge exactly when it shows a price line |
| CreateAppointment.FindById | screens/CreateAppointmentScreen.tsx:104 | `find` returns the first element with the id; none is found for a null id or an id nobody has |
| CreateAppointment.DisplayedPrice | screens/CreateAppointmentScreen.tsx:211-214 | the price line shows iff the chosen treatment id is truthy; it shows the price of the first listed treatment with that id, or 0 when there is none or its price is empty |
| CreateAppointment.CreateAppointmentScreen.constructor | screens/CreateAppointmentScreen.tsx:47-62 | nothing loaded or chosen; the date is the current time; pickers closed |
| CreateAppointment.CreateAppointmentScreen.GetUserId | screens/CreateAppointmentScreen.tsx:65-68 | `userId` becomes `Number` of the stored id |
| CreateAppointment.CreateAppointmentScreen.FetchTreatmentGroups | screens/CreateAppointmentScreen.tsx:71-81 | the groups are replaced on success and kept on failure; `loading` ends false |
| CreateAppointment.CreateAppointmentScreen.HandleGroupChange | screens/CreateAppointmentScreen.tsx:102-110 | the group id is always recorded; a listed group makes its categories the choices and clears the category and the treatment list; an unlisted or null id changes nothing else; the chosen treatment is never cleared |
| CreateAppointment.CreateAppointmentScreen.HandleCategoryChange | screens/CreateAppointmentScreen.tsx:113-120 | the category id is always recorded; a listed category makes its treatments the choices and clears the chosen treatment; an unlisted id changes nothing else |
| CreateAppointment.CreateAppointmentScreen.SelectTreatment | screens/CreateAppointmentScreen.tsx:182 | records the chosen treatment id |
| CreateAppointment.CreateAppointmentScreen.HandleDateChange | screens/CreateAppointmentScreen.tsx:122-127 | a picked value replaces the whole date and closes the picker; nothing picked changes nothing |
| CreateAppointment.CreateAppointmentScreen.HandleTimeChange | screens/CreateAppointmentScreen.tsx:130-138 | a picked value replaces hour and minute, keeps the calendar date and closes the picker; nothing picked changes nothing |
| CreateAppointment.CreateAppointmentScreen.CategoryPickerEnabled | screens/CreateAppointmentScreen.tsx:170 | the category picker is enabled iff the chosen group is neither null nor 0 |
| CreateAppointment.CreateAppointmentScreen.TreatmentPickerEnabled | screens/CreateAppointmentScreen.tsx:183 | the treatment picker is enabled iff the chosen category is neither null nor 0 |
| CreateAppointment.CreateAppointmentScreen.HandleSave | screens/CreateAppointmentScreen.tsx:83-94 | posts status 'pending' with the current user id, chosen treatment and date; goes back on success; alerts with the outcome; `updating` ends false |
| EditAppointment.MergePicked | screens/EditAppointmentScreen.tsx:59-70 | date mode takes the picked calendar date and keeps the time; time mode takes the picked time and keeps the date; nothing picked keeps the value |
| EditAppointment.DateThenTime | screens/EditAppointmentScreen.tsx:61-68 | picking a date and a time, in either order, gives the picked date at the picked time, whatever the value was before |
| EditAppointment.EditAppointmentScreen.constructor | screens/EditAppointmentScreen.tsx:32-38 | starts from the appointment's own date, in date mode, with the picker hidden and the status state null |
| EditAppointment.EditAppointmentScreen.ShowDateTimePicker | screens/EditAppointmentScreen.tsx:54-57 | sets the mode and shows the picker |
| EditAppointment.EditAppointmentScreen.OnDateChange | screens/EditAppointmentScreen.tsx:59-76 | the date becomes the merge of the picked value in the current mode; the picker closes on Android only |
| EditAppointment.EditAppointmentScreen.SetStatus | screens/EditAppointmentScreen.tsx:98 | the status picker records the chosen status |
| EditAppointment.EditAppointmentScreen.PickerValue | screens/EditAppointmentScreen.tsx:98 | the picker shows the chosen status when there is one, and otherwise the appointment's original status |
| EditAppointment.EditAppointmentScreen.HandleSave | screens/EditAppointmentScreen.tsx:40-52 | patches the appointment's id with the date and the status state as they are (null if never picked); goes back on success; `updating` ends false |
| Feedback.StarRating | screens/FeedbackScreen.tsx:33-39 | exactly five stars; star k (1..5) is filled iff k <= rating; the number of filled stars is the rating clamped to 0..5 |
| Feedback.Endpoint | screens/FeedbackScreen.tsx:99 | the tab named 'Novos' loads 'unreaded' and every other tab loads 'readed' |
| Feedback.RemoveById | screens/FeedbackScreen.tsx:122 | exactly the items with another id remain, every copy of each, in list order |
| Feedback.RemoveAbsentId | screens/FeedbackScreen.tsx:147 | removing an id that no item carries leaves the list unchanged |
| Feedback.ReadDialog | screens/FeedbackScreen.tsx:134-135 | the title is 'Marcar como não lido' iff the item is read and 'Marcar como lido' otherwise, with the matching question |
| Feedback.FetchFeedbacks | screens/FeedbackScreen.tsx:82-92 | gets the endpoint's list; a failure alerts and yields the empty list |
| Feedback.MarkAsReaded | screens/FeedbackScreen.tsx:72-79 | asks for the opposite of the item's read state; a failure alerts and is swallowed |
| Feedback.FeedbackListScreen.constructor | screens/FeedbackScreen.tsx:96 | a tab starts with no feedback |
| Feedback.FeedbackListScreen.LoadFeedbacks | screens/FeedbackScreen.tsx:98-102 | the tab shows what its endpoint returned, or nothing after a failure |
| Feedback.FeedbackListScreen.ConfirmDelete | screens/FeedbackScreen.tsx:119-128 | a successful delete removes the items with that id and keeps the order; a failed one alerts and keeps the list |
| Feedback.FeedbackListScreen.ConfirmRead | screens/FeedbackScreen.tsx:145-149 | the item leaves the list whether or not the patch succeeded |
| AdminTreatments.AdminTreatmentScreen.constructor | screens/AdminTreatmentScreen.tsx:23-26 | no treatments, no flags, empty search |
| AdminTreatments.AdminTreatmentScreen.FetchTreatments | screens/AdminTreatmentScreen.tsx:29-41 | `error` is set exactly when the fetch fails; a failure keeps the list and alerts; `loading` ends false |
| AdminTreatments.AdminTreatmentScreen.SetFilterText | screens/AdminTreatmentScreen.tsx:77 | records the search text |
| AdminTreatments.AdminTreatmentScreen.FilteredTreatments | screens/AdminTreatmentScreen.tsx:63 | exactly the treatments whose lower-cased name contains the lower-cased search text, every copy of each, in list order; an empty search keeps all |
| AdminTreatments.SearchIgnoresCase | screens/AdminTreatmentScreen.tsx:63 | search texts that differ only in letter case list the same treatments |
| TextSearch.Lower | screens/AdminTreatmentScreen.tsx:63 | same length; upper-case ASCII letters become lower-case and every other character is kept |
| TextSearch.Includes | screens/AdminEquipmentScreen.tsx:59 | `includes` of the empty text always holds, and a found text is no longer than the text searched |
| TextSearch.FilterByName | screens/AdminEquipmentScreen.tsx:59 | keeps exactly the items whose name matches, every copy of each, as a subsequence of the list |
| TextSearch.EmptyFilterKeepsAll | screens/AdminEquipmentScreen.tsx:59 | the empty search text keeps every item |
| TextSearch.FilterIgnoresCase | screens/AdminEquipmentScreen.tsx:59 | the result depends on the search text only up to letter case |
| AdminEquipment.StatusLabel | screens/AdminEquipmentScreen.tsx:66 | 'Disponível' iff the status is 'available'; 'Em manutenção' for any other value |
| AdminEquipment.AdminEquipmentScreen.constructor | screens/AdminEquipmentScreen.tsx:19-22 | no equipment, no flags, empty search |
| AdminEquipment.AdminEquipmentScreen.FetchEquipments | screens/AdminEquipmentScreen.tsx:25-37 | `error` is set exactly when the fetch fails; a failure keeps the list and alerts; `loading` ends false |
| AdminEquipment.AdminEquipmentScreen.SetFilterText | screens/AdminEquipmentScreen.tsx:73 | records the search text |
| AdminEquipment.AdminEquipmentScreen.FilteredEquipments | screens/AdminEquipmentScreen.tsx:59 | exactly the equipment whose lower-cased name contains the lower-cased search text, every copy of each, in list order; an empty search keeps all |
| AdminEquipment.SearchIgnoresCase | screens/AdminEquipmentScreen.tsx:59 | search texts that differ only in letter case list the same equipment |
| AdminEditTreatment.FieldsFilled | screens/AdminEditTreatmentScreen.tsx:34 | the form may be saved iff name, description, price and duration are all truthy |
| AdminEditTreatment.Payload | screens/AdminEditTreatmentScreen.tsx:42-48 | the edited name, description and price replace the treatment's; the duration is `parseInt` of its text; the id and categories are kept |
| AdminEditTreatment.UneditedFormRoundTrip | screens/AdminEditTreatmentScreen.tsx:30-48 | saving an untouched form sends the treatment back unchanged, duration included |
| AdminEditTreatment.AdminEditTreatmentScreen.constructor | screens/AdminEditTreatmentScreen.tsx:27-31 | the form starts from the treatment, with the duration as `duration.toString()` |
| AdminEditTreatment.AdminEditTreatmentScreen.Edit | screens/AdminEditTreatmentScreen.tsx:64-73 | the text fields record what was typed |
| AdminEditTreatment.AdminEditTreatmentScreen.HandleSave | screens/AdminEditTreatmentScreen.tsx:33-59 | an empty field alerts, sends nothing and leaves `updating` alone; otherwise the payload is sent with `updating` set true then false, and the app goes back on success |

## Left out

- HTTP and device storage are not modelled as I/O. Each request's outcome is a parameter (the returned data, or failure). Each storage call either succeeds or throws, as a parameter says. The remote API is not modelled.
- Token decoding (`jwtDecode`, base64url JSON) is the `Decoder` parameter. The client checks neither signatures nor expiry, and neither does the model.
- Async interleaving is not modelled: each handler runs atomically. That covers overlapping requests, unmounting, focus effects and `onRefresh`. The refetch that the dashboard's status handlers start without awaiting is treated as finished when the handler ends.
- The interceptor is modelled on its own. It is not composed into the request of every handler.
- Money and number formatting is left out: `formatPriceBR`, `Number(price)` and `+price` are floating point and locale output. `Feedback.StarRating` and the durations take integer values only. Fractional ratings are not modelled.
- Date formatting, time zones, daylight saving, seconds and milliseconds of a `Date`, and `toISOString` are left out. A date is a record of year, month, day, hour and minute.
- CreateAppointment.DisplayedPrice: a chosen treatment id of 0 puts a bare 0 outside any `<Text>`, which React Native rejects with a render error; the model shows no price line for it.
- Numbers.ToNumber: covers `null`, `''` and digit strings with an optional leading '+' or '-'; other forms `Number` accepts (surrounding white space, fractions, exponents, hex) give NaN in the model.
- Numbers.ParseIntOfIntString: numbers are modelled as unbounded integers, not doubles. The round trips hold for the ids and durations the app handles. In the program, the `parseInt` round trip breaks from 1e21 on, where `toString` switches to exponent form and "1e+21" parses to 1; the `Number` round trip holds for every finite double. Integers above 2^53 are not exact in the program.
- Numbers.ParseInt: skips ASCII white space only, not the other Unicode spaces `parseInt` skips.
- TextSearch.Lower: lower-cases ASCII letters only; `toLowerCase` on other scripts is not modelled.
- Storage.Store.GetItem: never fails; a failing read of the store is not modelled.
- The profile screen's `getUserInfo` is not modelled. The dashboard's `GetUserInfo` has the same shape.
- Presentational parts are not part of this model: styles, JSX layout, icons, swipe actions and picker widgets, the open-picker handlers, and the delete confirmation dialog's fixed text.
- screens/ProfileEditScreen.tsx, screens/AdminEditEquipmentScreen.tsx, the register and forgot-password stubs, and the navigation table are not part of this model.
