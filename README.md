# SkyWay ride connect — a verified model of its rules

SkyWay books airport rides. Passengers sign in with a one-time code sent by
email, book a ride priced from a per-vehicle fare table, and board with a QR
ticket that the driver and the passenger scan. Drivers, garages and airlines
register as partners, and admins approve them. Most of the system is
user interface and create/read/update/delete calls into a hosted Postgres
database. This project models the rules that sit between the two: the
Supabase edge functions and the client-side guards.

Each module follows one source file:

| module | file | models |
|---|---|---|
| `OtpAuth` | `otp_auth.dfy` | the per-email rate limiter, six-digit codes, issuing and consuming codes, finding or creating the user (class `OtpService`) |
| `Rides` | `rides.dfy` | required-field check, fare table with sedan fallback, route distance/duration and its fallback, the new ride record |
| `QrTickets` | `qr_tickets.dfy` | ticket generation (idempotent), ticket validity, the scan state machine (class `TicketDesk`) |
| `Subscriptions` | `subscriptions.dfy` | plan table, price, calendar-month end date, one-active-subscription rule, update, cancel-by-status, listing |
| `Drivers` | `drivers.dfy` | listing filter and rating order, registration, stripping privileged columns from a non-admin update, delete |
| `AirlinePartnerships` | `airline_partnerships.dfy` | admin/public listing, creation defaults and status, admin-only update and delete |
| `AuthManagement` | `auth_management.dfy` | routing, own-profile update with role stripping, admin gate, admin update, verify-user |
| `ProtectedRoute` | `protected_route.dfy` | the loading / sign-in / role decision and its redirect |
| `AuthPage` | `auth_page.dfy` | the sign-in page's email → role → code step machine (class `Page`), role → route, role-specific profiles |
| `Signup` | `signup.dfy` | the ordered sign-up validator |

The modules share these helpers:

- `Json` (`json.dfy`): JSON values, JavaScript truthiness, and rows as `map<string, Value>`.
- `Tables` (`tables.dfy`): the database query shapes the handlers rely on.
  - `.single()` yields a row only when exactly one row matches.
  - A descending `.order`.
  - Filtered update and delete.
- `Http` (`http.dfy`): replies with a status, and the id in the last path segment.
- `Roles` (`roles.dfy`): the admin test.
- `Opt` (`option.dfy`): an option type.

Conventions throughout the model:

- Time is an integer count of milliseconds.
- Money and distances are reals.
- Random draws, new ids and the clock are parameters.
- Each database table is a sequence of rows, passed in and handed back.
- The replies of outside services are parameters: the auth service, the email sender and the directions service.

## Model

| member | source | states |
|---|---|---|
| Json.MissingFields | supabase/functions/rides/index.ts:116-118 | the missing list holds exactly the required names whose value is falsy (absent, null, false, 0, ""), in the order they are listed |
| Http.LastSegment | supabase/functions/subscriptions/index.ts:54-55 | the id is the text after the last '/', holds no '/', and is the whole path when it has none |
| Tables.Single | supabase/functions/subscriptions/index.ts:109-116 | a `.single()` query yields a row exactly when one row matches; no match and several matches both yield nothing |
| Tables.SortDesc | supabase/functions/subscriptions/index.ts:86-90 | a descending order returns the same rows (as a multiset), each key at least the next |
| Tables.UpdateWhere | supabase/functions/subscriptions/index.ts:196-202 | an update rewrites exactly the matching rows and keeps the length and every other row |
| Tables.DeleteWhere | supabase/functions/drivers/index.ts:240-243 | a delete keeps no matching row, keeps every other row exactly as often as the table holds it, and keeps them in table order (a subsequence of the table), which leaves one possible result |
| Tables.FilterPartition | supabase/functions/drivers/index.ts:110 | splitting rows by a test and its negation loses and adds no row |
| Roles.IsAdminExactly | supabase/functions/drivers/index.ts:100 | the caller is admin iff a profile was found whose role is super_admin or airline_admin; no profile means non-admin |
| Roles.ProfileOf | supabase/functions/airline-partnerships/index.ts:59-63 | the caller's profile is found iff exactly one profile row carries their user id |
| OtpAuth.RateStepCases | supabase/functions/otp-auth/index.ts:26-49 | limited iff an entry exists, its last accepted attempt is at most 30 000 ms ago and its count is ≥ 3; a refusal keeps the entry (lastAttempt not refreshed); an acceptance stamps now and resets to 1 or adds exactly 1; the count stays in 1..3 |
| OtpAuth.AllowedAfterStamp | supabase/functions/otp-auth/index.ts:41-48 | after an entry stamped inside a 30 000 ms span, the span admits at most 3 − count more sends |
| OtpAuth.AtMostThreePerWindow | supabase/functions/otp-auth/index.ts:26-49 | whatever was stored, at most three sends per email pass in any 30 000 ms span |
| OtpAuth.AllowedCountSnoc | supabase/functions/otp-auth/index.ts:26-49 | replaying one more call adds that call's verdict to the count of accepted sends |
| OtpAuth.FourthSendInWindowLimited | supabase/functions/otp-auth/index.ts:42-44 | after three accepted sends in a span, a fourth in the same span is refused |
| OtpAuth.DecimalString | supabase/functions/otp-auth/index.ts:52 | `toString` of a natural number is a non-empty string of decimal digits |
| OtpAuth.DecimalRoundTrip | supabase/functions/otp-auth/index.ts:52 | reading the printed number back gives the number |
| OtpAuth.DecimalLength | supabase/functions/otp-auth/index.ts:52 | a k-digit number prints as k characters |
| OtpAuth.GenerateOtp | supabase/functions/otp-auth/index.ts:51-53 | for a draw in [0, 1) the code is six decimal digits whose value lies in [100000, 999999] |
| OtpAuth.SelectNewest | supabase/functions/otp-auth/index.ts:160-169 | the verify query finds a code iff some stored code has the same email and code, is unused and has not expired, and it picks one with the latest creation time |
| OtpAuth.CountCandidates | supabase/functions/otp-auth/index.ts:160-166 | no live matching code remains iff the count is 0 |
| OtpAuth.MarkUsedConsumesOne | supabase/functions/otp-auth/index.ts:178-182 | marking the selected code used removes exactly one live match |
| OtpAuth.CountAntitone | supabase/functions/otp-auth/index.ts:160-166 | a code that fails the verify query's expiry test at one time still fails it at every later time |
| OtpAuth.SecondVerifyFails | supabase/functions/otp-auth/index.ts:160-182 | a code that was the only live match cannot be verified a second time, at the same time or any later one |
| OtpAuth.IssuedCodeIsAccepted | supabase/functions/otp-auth/index.ts:95-105 | a code stored at issue time with expiry now + 300 000 ms is found by the verify query until it expires |
| OtpAuth.LocalPart | supabase/functions/otp-auth/index.ts:219 | the default full name is the prefix of the email before its first '@' |
| OtpAuth.OtpService.constructor | supabase/functions/otp-auth/index.ts:24 | the service starts with an empty rate-limit map and empty tables |
| OtpAuth.OtpService.IsRateLimited | supabase/functions/otp-auth/index.ts:26-49 | the call answers and stores what the limiter step gives for this email; no other email's entry changes; stored counts stay in 1..3 |
| OtpAuth.OtpService.SendOtp | supabase/functions/otp-auth/index.ts:70-147 | an empty email or one without '@' gets 400 before the limiter is consulted; a limited email gets 429 and nothing is stored; otherwise the code is stored with expiry now + 300 000 ms, and the reply advertises a resend at now + 30 000 ms or reports a failed insert or delivery |
| OtpAuth.OtpService.VerifyOtp | supabase/functions/otp-auth/index.ts:149-256 | missing email or code gets 400; no live match gets "Invalid or expired OTP"; otherwise the newest live match is marked used before the user is resolved; an existing profile signs in; otherwise an account and a passenger profile named after the email's local part are created, each failure with its own 500 |
| Rides.FareTable | supabase/functions/rides/index.ts:164-182 | fare = base + km × rate with sedan 500/150, suv 800/200, luxury 1500/400, van 1000/250, bus 2000/300 |
| Rides.UnknownVehicleIsSedan | supabase/functions/rides/index.ts:180-181 | a vehicle type outside the table is charged as a sedan |
| Rides.FareMonotone | supabase/functions/rides/index.ts:182 | a zero-length trip costs the base fare; the fare never falls as the distance grows |
| Rides.Ceil | supabase/functions/rides/index.ts:151 | `Math.ceil` gives the least integer not below its argument |
| Rides.EstimateRoute | supabase/functions/rides/index.ts:141-161 | with a route, km = metres / 1000 and minutes = ceil(seconds / 60); no routes and no throw leave 0 and 0; only a throw falls back to the great-circle distance with minutes = ceil(km × 2) |
| Rides.CreateRide | supabase/functions/rides/index.ts:112-204 | a falsy required field gets 400 listing them; a missing Maps API key gets 500 before any fare; otherwise the ride stores the distance and duration of the route branch taken (first leg, no route, or great-circle fallback), is priced by the fare table at that distance, passenger_count defaults to 1, and the request fields are copied |
| Rides.VehicleTypePresent | supabase/functions/rides/index.ts:116-118 | a request that passes the required-field check has a truthy vehicle type |
| Rides.ZeroCoordinateIsMissing | supabase/functions/rides/index.ts:116-118 | a coordinate equal to 0 is reported missing |
| QrTickets.WithQrIdempotent | supabase/functions/qr-tickets/index.ts:78-86 | generating twice stores and returns the first code; an existing code is kept |
| QrTickets.TicketValidWindow | supabase/functions/qr-tickets/index.ts:146-151 | a ticket is valid iff now lies within a day before or after the ride date (scheduled time, else creation time) and the ride is pending, accepted or in progress; completed or cancelled never |
| QrTickets.ScanTransitions | supabase/functions/qr-tickets/index.ts:203-223 | a driver's scan moves accepted → in_progress and stamps pickup; a passenger's scan moves in_progress → completed and stamps completion; every other pair leaves the ride untouched; no scan moves a ride backwards |
| QrTickets.TicketDesk.Generate | supabase/functions/qr-tickets/index.ts:47-112 | a missing ride id gets 400; a ride the caller does not take part in gets 404; otherwise the code is reused or created and stored once |
| QrTickets.TicketDesk.Verify | supabase/functions/qr-tickets/index.ts:114-160 | a missing code gets 400; an unknown code gets 404; otherwise the reply carries the validity judgement at now |
| QrTickets.TicketDesk.Scan | supabase/functions/qr-tickets/index.ts:164-231 | a missing code gets 400; an unknown code gets 404; otherwise the ride takes the scan transition, the reply shows the new status, and the log records the scanner's role or 'unknown' |
| Subscriptions.PlanPrices | supabase/functions/subscriptions/index.ts:15-19 | the plans are basic, premium and enterprise at 2500, 5000 and 15000 a month |
| Subscriptions.AddMonths | supabase/functions/subscriptions/index.ts:126-128 | the end date is n calendar months on, same day and time; a day the target month lacks rolls into the next month |
| Subscriptions.AddMonthsCompose | supabase/functions/subscriptions/index.ts:128 | for a day every month has, advancing by a then b months is advancing by a + b |
| Subscriptions.AddMonthsForward | supabase/functions/subscriptions/index.ts:128 | zero months changes nothing; n months lands at least n months later |
| Subscriptions.Apply | supabase/functions/subscriptions/index.ts:166-174 | a patch keeps id, owner and creation time, sets the status it carries and keeps the status otherwise; an empty patch changes nothing |
| Subscriptions.NewSubscription | supabase/functions/subscriptions/index.ts:123-138 | a new subscription is active, priced monthly × months (months not validated), carries the plan's features, and ends n months after it starts |
| Subscriptions.Create | supabase/functions/subscriptions/index.ts:97-156 | an unknown type gets 400 before any lookup; a user with one active subscription gets 409 and nothing is inserted; otherwise the new subscription is appended and returned with 201 |
| Subscriptions.CreateKeepsOneActive | supabase/functions/subscriptions/index.ts:108-121 | a user with at most one active subscription still has at most one after a POST, and one more after a successful POST; a refused POST writes nothing; a user already holding two is not refused |
| Subscriptions.UpdateOwned | supabase/functions/subscriptions/index.ts:168-181 | the update touches only the caller's row with that id, and answers 400 unless exactly one row matched |
| Subscriptions.Update | supabase/functions/subscriptions/index.ts:158-185 | a missing id (empty or 'subscriptions') gets 400; otherwise the patch is applied to the caller's row |
| Subscriptions.Cancel | supabase/functions/subscriptions/index.ts:187-202 | a missing id gets 400; otherwise the caller's row with that id is set to 'cancelled' |
| Subscriptions.CancelOnlyChangesStatus | supabase/functions/subscriptions/index.ts:195-202 | cancelling removes no row, changes only the status of the caller's matching row, and never adds an active subscription |
| Subscriptions.CancelReply | supabase/functions/subscriptions/index.ts:204-216 | a successful cancel answers with the confirmation message and the cancelled row |
| Subscriptions.Get | supabase/functions/subscriptions/index.ts:59-95 | `?action=plans` answers with the plan table unchanged; a path id answers with the caller's row or 404; otherwise all the caller's subscriptions, newest first |
| Drivers.ListDrivers | supabase/functions/drivers/index.ts:84-114 | a non-admin sees only active, available drivers; an airport filter applies when given; the result holds the listed drivers, unrated first, then by rating from highest to lowest |
| Drivers.NullsFirst | supabase/functions/drivers/index.ts:110 | unrated rows followed by rated rows in descending order are in descending-with-nulls-first order |
| Tables.GetById | supabase/functions/drivers/index.ts:61-82 | a row is returned iff exactly one row has the id, otherwise 404 with the `.single()` error; the airline-partnerships GET of one partnership (airline-partnerships/index.ts:69-86) is the same query |
| Drivers.ToUpper | supabase/functions/drivers/index.ts:157 | each letter a–z becomes A–Z, nothing else changes, and the length is kept |
| Drivers.ToUpperIdempotent | supabase/functions/drivers/index.ts:157 | an upper-cased plate holds no lower-case letter and is its own upper case |
| Drivers.NewDriver | supabase/functions/drivers/index.ts:149-162 | a new driver belongs to the caller, is pending, has the plate upper-cased and copies the listed request fields |
| Drivers.Register | supabase/functions/drivers/index.ts:117-184 | a falsy required field gets 400 listing them; a caller with a driver row gets 409; a plate that is not a string fails; otherwise the pending driver is appended with 201 |
| Drivers.StripPrivileged | supabase/functions/drivers/index.ts:203-208 | for a non-admin exactly status, rating and total_rides are removed and every other key passes unchanged; an admin's update is untouched |
| Drivers.Update | supabase/functions/drivers/index.ts:186-230 | a missing id gets 400; otherwise the stripped update is merged into the driver with that id |
| Drivers.NonAdminCannotPromote | supabase/functions/drivers/index.ts:203-212 | a non-admin's update never changes a driver's status, rating or ride count and writes every other column sent |
| Drivers.Delete | supabase/functions/drivers/index.ts:232-254 | a missing id gets 400; otherwise the driver with that id is removed |
| AirlinePartnerships.Project | supabase/functions/airline-partnerships/index.ts:94-95 | a column selection keeps each row's selected columns only |
| AirlinePartnerships.List | supabase/functions/airline-partnerships/index.ts:88-103 | admins see every partnership, newest first; others see only approved ones, projected to the six public columns |
| AirlinePartnerships.NewPartnership | supabase/functions/airline-partnerships/index.ts:137-148 | commission defaults to 15.0 when absent or 0, airports to []; the status is approved for an admin and pending otherwise |
| AirlinePartnerships.Create | supabase/functions/airline-partnerships/index.ts:106-166 | a falsy required field gets 400 listing them; an existing airline name gets 409; otherwise the new partnership is appended with 201 |
| AirlinePartnerships.CreatedStatus | supabase/functions/airline-partnerships/index.ts:145-147 | a created partnership is approved iff its creator is admin; an absent or zero commission becomes 15 |
| AirlinePartnerships.Update | supabase/functions/airline-partnerships/index.ts:168-201 | a missing id gets 400 before the permission check; a non-admin gets 403; an admin's update is merged into the row with that id |
| AirlinePartnerships.Delete | supabase/functions/airline-partnerships/index.ts:203-232 | a missing id gets 400 before the permission check; a non-admin gets 403; an admin removes the row with that id |
| AirlinePartnerships.OnlyAdminsWrite | supabase/functions/airline-partnerships/index.ts:168-216 | for a non-admin PUT and DELETE leave the table unchanged and answer 400 for a missing id, else 403 |
| AuthManagement.Route | supabase/functions/auth-management/index.ts:53-221 | GET profile/users, PUT profile or a user id, POST verify-user; other actions get 'Invalid endpoint' and other methods 405; every PUT is routed |
| AuthManagement.UpdateProfile | supabase/functions/auth-management/index.ts:117-133 | the update is merged into the rows of that user and answers 400 unless exactly one matched |
| AuthManagement.ReadOwnProfile | supabase/functions/auth-management/index.ts:55-72 | the caller's own profile, or 404 |
| AuthManagement.ListAllUsers | supabase/functions/auth-management/index.ts:73-96 | a non-admin gets 403; an admin gets every profile, newest first |
| AuthManagement.StripRoleUnlessSuperAdmin | supabase/functions/auth-management/index.ts:103-115 | a truthy role is removed unless the caller is super_admin; without one the update is passed as given, whatever the caller's profile |
| AuthManagement.UpdateOwn | supabase/functions/auth-management/index.ts:99-133 | the caller's own profile takes the update with the role stripped as above |
| AuthManagement.SelfUpdateKeepsRole | supabase/functions/auth-management/index.ts:103-122 | a caller who is not super_admin cannot set a role through their own profile (only a falsy role gets through); every other column sent is written |
| AuthManagement.AdminUpdate | supabase/functions/auth-management/index.ts:134-170 | a non-admin gets 403 and nothing changes; an admin's update is applied to the target |
| AuthManagement.AdminUpdatePassesRole | supabase/functions/auth-management/index.ts:153-158 | an admin's update reaches the target whole, role included |
| AuthManagement.Verify | supabase/functions/auth-management/index.ts:173-208 | a non-admin gets 403; an admin sets is_verified on the target's profile |
| AuthManagement.VerifyMarksTarget | supabase/functions/auth-management/index.ts:191-196 | verifying marks the target verified and changes no other profile and no other column |
| AuthManagement.AdminGate | supabase/functions/auth-management/index.ts:73-189 | the user list, an update of another user and verify-user all answer 403 to a non-admin and write nothing |
| AuthManagement.Handle | supabase/functions/auth-management/index.ts:53-221 | a request is answered by the handler its route names |
| ProtectedRoute.RenderAgreesWithRedirect | src/components/ProtectedRoute.tsx:20-55 | while loading, the spinner and no decision; once loaded, nothing renders exactly when it redirects; children render iff a user is present or not required and the role check passes |
| ProtectedRoute.RedirectTargets | src/components/ProtectedRoute.tsx:23-33 | without a required user it goes to '/auth'; with a refused role to '/' |
| ProtectedRoute.RoleCheckScope | src/components/ProtectedRoute.tsx:28-53 | empty allowed roles mean no role check; a profile not yet loaded skips it; a null role is checked as '' |
| ProtectedRoute.Defaults | src/components/ProtectedRoute.tsx:12-55 | by default a user is required and any role admitted; without requireAuth the children render with no user |
| Signup.Missing | src/pages/Signup.tsx:28-29 | the missing list holds exactly the required fields left empty |
| Signup.MissingIffEmpty | src/pages/Signup.tsx:28-31 | nothing is missing iff all five required fields are filled |
| Signup.SubmitOrder | src/pages/Signup.tsx:25-62 | missing fields, then password mismatch, then terms; each failure only when the earlier checks pass; success iff all three pass |
| Signup.OptionalFieldsIrrelevant | src/pages/Signup.tsx:13-29 | the phone number and the marketing box never change the outcome |
| AuthPage.RouteForRole | src/pages/Auth.tsx:225-237 | driver → /drivers, garage_partner → /garages, airline_partner → /airlines, anything else → /book |
| AuthPage.RedirectTarget | src/pages/Auth.tsx:49-70 | a signed-in visitor is redirected, once loaded and with a known role, to that role's home by the same mapping |
| AuthPage.FirstUnderscore | src/pages/Auth.tsx:203 | the position found holds the first underscore |
| AuthPage.ReplaceFirstUnderscore | src/pages/Auth.tsx:203 | only the first underscore of the role becomes a space |
| AuthPage.AuxProfileFor | src/pages/Auth.tsx:164-197 | driver: experience 0, background 'pending'; garage: name + "'s Garage", capacity 10; airline: name + " Airlines", 'standard', commission 0.05; a passenger gets none |
| AuthPage.Page.constructor | src/pages/Auth.tsx:39-46 | the page starts on the email step with empty fields, role passenger and no cooldown |
| AuthPage.Page.EnterEmail | src/pages/Auth.tsx:318-319 | typing the email on the email step sets it |
| AuthPage.Page.EnterName | src/pages/Auth.tsx:346-347 | typing the name on the role step sets it |
| AuthPage.Page.SelectRole | src/pages/Auth.tsx:361 | choosing a role on the role step sets it |
| AuthPage.Page.EnterOtp | src/pages/Auth.tsx:404-405 | typing the code on the code step sets it |
| AuthPage.Page.SendOtp | src/pages/Auth.tsx:82-110 | an empty email or one without '@' is refused without calling the backend; a successful send moves to the role step from whichever step it was made; failures keep the step; the toast is the reply's message on success and the error, or "Failed to send OTP" when it is empty, on failure (`SendToast`) |
| AuthPage.Page.ProceedToOtp | src/pages/Auth.tsx:112-119 | a blank name is refused; otherwise the page moves to the code step with a 30-second cooldown |
| AuthPage.Page.HandleResendOtp | src/pages/Auth.tsx:250-253 | nothing happens while the cooldown runs; otherwise the code is sent again and shows the same toast a first send would (`SendToast`) |
| AuthPage.Page.GoBack | src/pages/Auth.tsx:255-262 | the code step goes back to the role step, any other to the email step; the code is cleared |
| AuthPage.Page.Tick | src/pages/Auth.tsx:72-80 | each second the cooldown drops by one until 0 |
| AuthPage.Page.VerifyOtp | src/pages/Auth.tsx:121-248 | a code that is not six characters is refused without calling the backend; a success writes the chosen role (and the name and role profile for a new user) and goes to the role's home; a new user whose profile write fails stays |

Two classes keep an invariant across every method:

- `OtpService.Valid`: every stored rate-limit count is in 1..3.
- `Page.Valid`: the cooldown stays in 0..30. The role step is reached only with an email the backend accepts. The code step is reached only with a non-blank name.

In `TicketDesk`, the scan is the only method that writes a ride's status. It writes only the transitions that `QrTickets.ScanTransitions` describes.

## Left out

- The Haversine great-circle distance is floating-point trigonometry. It is an input to `Rides.EstimateRoute`.
- These services are outside the model; their replies are parameters:
  - the database client and its row-level security;
  - the email sender;
  - the directions service;
  - the auth service's user creation and magic-link session;
  - the QR image service.
- The bearer-token check that opens every edge function (401 replies) is not modelled. The caller's user id is a parameter.
- The payments edge function is not part of this model.
- The `cleanup_expired_otps` database procedure called before a code is issued is not part of this model. Expired codes stay in `otps`. The verify query ignores them anyway.
- Each handler reads the clock once, as `now`. The source reads it again for the expiry, the resend time and the verification time, a few milliseconds apart.
- The rate-limit map is used sequentially. Concurrent requests, and the map being lost when the function restarts, are not modelled.
- Database write errors are not modelled, with three exceptions: the code insert in `OtpAuth.OtpService.SendOtp`, the profile insert in `OtpAuth.OtpService.VerifyOtp`, and the profile update in `AuthPage.Page.VerifyOtp`. Enum and constraint violations are among the errors left out; PostgREST would report them with 400.
- Each edge function's catch-all 500 "Internal server error" is not modelled, except for the non-string plate in `Drivers.Register`. A request body that is not valid JSON reaches it through `req.json()`, and so does a field of the wrong type, such as an email that is not a string. Request bodies are typed rows, so these inputs do not arise.
- JSON numbers are exact reals: floating-point rounding and NaN are not modelled.
- Property lookups that hit `Object.prototype` are not modelled. Examples are a vehicle type or subscription type of "constructor" or "toString".
- Rows created at the same instant are ordered as inserted. The database leaves their order unspecified.
- ISO date strings are held as millisecond counts or calendar dates.
- Rides: listing, reading, updating and cancelling rides are not modelled. They are pass-through queries outside the rules above.
- QR tickets: the generated `qr_data` payload and image URL are left out. So are the "Invalid endpoint" and 405 routing of the ticket function.
- On the sign-in page, how the cooldown interval is scheduled and how a toast is displayed are left out. `AuthPage.Page.Tick` models one tick, and the handlers return the toast they show. `localStorage`, the one-second delay before navigation, and `setSession`/`refreshProfile` are left out too.
- Rides.CreateRide: scheduled_time is passed on as sent. The source re-formats a truthy value as an ISO string.
- QrTickets.TicketDesk.Verify: the 404 reply's `valid: false` field is implied by the failure and not carried.
- QrTickets.TicketDesk.Generate: the row is updated by its position in the table, which stands for its primary key.
- Drivers.ToUpper: covers ASCII letters only. `toUpperCase` also maps other scripts and can lengthen a string.
- Drivers.ListDrivers: the joined profile and airport columns are not part of the listed rows.
- Drivers.Register: `documents` and `vehicle_color` are copied only when present. A non-string plate is reported as the handler's generic 500.
- Subscriptions.AddMonths: uses the calendar of the server's time zone, taken as UTC. Daylight-saving shifts are not modelled.
- Subscriptions.Update: a PUT body is a patch of the plan, status, dates, price and features. The source passes the raw body on, so it could also name other columns, such as `user_id`.
- Subscriptions.Create: `duration_months` is an integer. A fractional or non-numeric value is not modelled.
- AuthManagement.Verify: a missing or non-string `user_id` is treated as the empty id. A profile whose `user_id` is the empty string would then be marked verified; real profiles carry uuids, which are never empty. The source sends the raw value to `.eq`, which matches no uuid.
- AuthPage.Page.EnterEmail: the field setters and `ProceedToOtp` require the step whose form shows that control.
- AuthPage.Page.VerifyOtp: returns what it writes. The writes' own errors are not modelled, apart from the failing profile update for a new user.
