# Therapy appointment scheduling: a Dafny model

This project models the scheduling core of a small therapy-booking web
service. Callers obtain a short-lived token by registering and logging in.
With that token they can query appointments by date window, therapist
specialism and appointment kind, and book new appointments. Booking refuses
a start in the past and any candidate that falls inside an existing
appointment of the same therapist.

The model is in eight files:

- `wrappers.dfy`: the `Option` and `Result` types, plus `Response`. A `Response` is a message with its status, or `Unhandled`, meaning an exception escaped the handler and the framework answers with its generic 500 page.
- `seqs.dfy`: `Filter`, the order-preserving `list(filter(...))`, and its lemmas.
- `text.dfy`: `Split` (Python's `str.split(sep)`), `Join` and `Decimal`.
- `therapist.dfy`: therapists, their specialism names, and selection of therapists by specialism.
- `appointment.dfy`: the appointment record, its constructor, the conflict rule, `SaveDecision`, and the class `AppointmentStore`. `AppointmentStore` owns the stored records, and its method `Save` appends to them.
- `appointment_routes.dfy`: the query endpoint `GetAppointments`, the booking pipeline `AddRequest` and `AddAppointment`, and both endpoints behind the token gate.
- `auth_routes.dfy`: the token gate `Gate`, `GetArgs`, and the class `UserStore`, whose methods are `Register` and `Login`.
- `scenario.dfy`: the seed data of the test suite, and the outcomes the tests expect from it.

Times are whole minutes since 1970-01-01 00:00, with no time zone. The
default query window is minute 0 (1970-01-01) to minute 541699200
(2999-12-12 00:00).

Several things are supplied from outside as function-typed parameters:

- the wall clock, as `now`;
- date parsing (`strptime`), integer parsing (`int()`) and the database's reading of a therapist id (`Parsers`);
- the database's reading of the window bounds (`toMinutes`);
- JSON decoding (`loads`);
- the JWT decoder (`decode`), the token issuer (`issue`);
- the password hasher (`hash`) and password checker (`checkPassword`).

Two behaviours of the code are worth knowing, and the model keeps both:

- **Conflict rule.** `save` refuses a candidate only when BOTH its start
  and its end lie inside an existing appointment of the same therapist
  (models/appointment.py:37-39). This is containment, not overlap.
  `Conflicts` is this rule. So a candidate that only partly overlaps an
  existing appointment is accepted, and so is one that strictly contains an
  existing appointment (`PartialOverlapAccepted`,
  `StrictContainmentAccepted`). The store's invariant is therefore "no
  appointment lies inside an earlier one of the same therapist", not "no two
  appointments overlap".
- **Negative durations.** `int()` accepts a negative duration, and nothing
  checks the sign (application/appointments/routes.py:173). The result is
  an appointment that ends before it starts, and the identical request is
  accepted again (`NegativeLengthSavedTwice`).

## Model

| member | source | states |
|---|---|---|
| `AppointmentModel.NewAppointment` | models/appointment.py:21-26 | the constructed appointment is unsaved (no id), starts at `start`, ends `length` minutes later, and keeps the kind and therapist |
| `AppointmentModel.Types` | models/appointment.py:49-51 | exactly two kinds exist, listed as `one-off` then `consultation` |
| `AppointmentModel.AppointmentsOf` | models/appointment.py:33-40 | `therapist.appointments` holds exactly the stored records of that therapist |
| `AppointmentModel.OverlapList` | models/appointment.py:33-42 | the overlap list holds only the therapist's conflicting records, and is empty exactly when no record of the therapist conflicts |
| `AppointmentModel.SaveMessage` | models/appointment.py:31-47 | the message is "Appointment added." exactly for a successful save |
| `AppointmentModel.SaveDecision` | models/appointment.py:28-47 | a start strictly before `now` is refused as in the past; otherwise the candidate is refused as overlapping iff some record of its therapist contains both its start and its end; otherwise it is added |
| `AppointmentModel.AppointmentStore.Save` | models/appointment.py:28-47 | the outcome is `SaveDecision` on the old records; on success the store grows by exactly this record under a fresh id; otherwise nothing changes; no record ever lies inside an earlier record of the same therapist |
| `AppointmentModel.PartialOverlapAccepted` | models/appointment.py:37-39 | a candidate with one endpoint outside an appointment is never refused because of it |
| `AppointmentModel.StrictContainmentAccepted` | models/appointment.py:37-39 | a candidate strictly containing an appointment overlaps it, yet is not refused because of it |
| `AppointmentModel.ConflictIsContainment` | models/appointment.py:37-39 | for a candidate of non-negative length, the rule is exactly containment, and it implies overlap |
| `AppointmentModel.OtherTherapistsIgnored` | models/appointment.py:33-41 | records of other therapists change neither the overlap list nor the decision |
| `AppointmentModel.SecondIdenticalSaveOverlaps` | models/appointment.py:35-47 | once a candidate of non-negative length is stored, saving it again is refused as overlapping |
| `AppointmentModel.NegativeLengthSavedTwice` | models/appointment.py:22-39 | a candidate ending before it starts, once added, is added again on a second save |
| `Therapists.WithAnySpecialism` | application/appointments/routes.py:73-79 | a therapist is selected iff it holds at least one of the requested names (OR) |
| `Therapists.UnknownSpecialismMatchesNobody` | application/appointments/routes.py:73-77 | a name no therapist holds selects nobody |
| `Therapists.MoreNamesSelectMore` | application/appointments/routes.py:74-77 | adding names to the list never removes a therapist from the selection |
| `AppointmentRoutes.Hits` | application/appointments/routes.py:64-92 | an appointment is returned iff it is stored and meets all three criteria: the start lies in the inclusive window (given bounds only when both `start` and `end` are present, else the defaults), the therapist holds a requested specialism (or none was requested), and the kind is the given `type` (or a known kind); each hit is listed as often as it is stored, so once for a stored record |
| `AppointmentRoutes.GetAppointments` | application/appointments/routes.py:58-112 | a request with no keys is refused with 400 and no listing; any other request answers 200 with "Appointments found: n", where n is the number of hits; the listing has one entry per hit, in the order of the hits, with the start, the duration in minutes, the therapist's name and the kind |
| `AppointmentRoutes.AddedAppointmentListedOnce` | application/appointments/routes.py:88-92 | a newly stored appointment that meets a query is listed exactly once, after all earlier hits (in store order) |
| `AppointmentRoutes.UnknownTypeListsNothing` | application/appointments/routes.py:82-91 | an unknown `type` yields an empty listing, not an error |
| `AppointmentRoutes.UnrecognisedKeysListEverything` | application/appointments/routes.py:58-85 | a non-empty request carrying only unrecognised keys is not refused: every filter takes its default, and the answer is 200 "Appointments found: n" for the whole store of n records |
| `AppointmentRoutes.FindTherapist` | application/appointments/routes.py:166-168 | the therapist is found iff its id reads as an identity present in the directory |
| `AppointmentRoutes.AddRequest` | application/appointments/routes.py:147-178 | the checks run in order (all four keys, a known kind, an existing therapist, a parsable start and duration), and the first to fail decides its message, "Invalid start time or duration." for the last; on success the candidate is exactly the new unsaved appointment from the parsed start, for the parsed number of minutes, of the requested kind, for the requested therapist |
| `AppointmentRoutes.AddAppointment` | application/appointments/routes.py:147-186 | a failed check answers its message with 400 and leaves the store unchanged; otherwise the save decides: 200 with "Appointment added." and one new record, or 400 with the refusal and the store unchanged |
| `AppointmentRoutes.UnknownTherapistBeforePastStart` | application/appointments/routes.py:166-179 | a booking whose therapist id is not in the directory (unreadable, or read but absent) is answered 400 "Therapist not found." at every clock reading, a past start included, and leaves the store unchanged |
| `AppointmentRoutes.IncorrectTypeMessageText` | application/appointments/routes.py:161-164 | the refusal of an unknown kind renders the list of kinds as Python prints it: "Incorrect type. Must be one of ['one-off', 'consultation']" |
| `AppointmentRoutes.AddThenQuery` | application/appointments/routes.py:88-92 | a successful booking stores a record that was not stored before, and every query that record meets lists it after the hits it had before the booking |
| `AppointmentRoutes.GuardedGetAppointments` | application/appointments/routes.py:12-14 | a request denied by the gate gets the gate's answer; an admitted request gets the query's answer |
| `AppointmentRoutes.GuardedAddAppointment` | application/appointments/routes.py:115-117 | a request denied by the gate gets the gate's answer and leaves the store unchanged; an admitted request gets exactly the answer and the new records of `AddAppointment`, and 200 exactly when one appointment was added |
| `AuthRoutes.Gate` | application/auth/routes.py:11-31 | no header is refused with 401 "Invalid Authorization token in header."; a header with no space raises; a decoder refusal becomes the 401 message; the handler runs iff the token is empty or decodes |
| `AuthRoutes.BearerHeader` | application/auth/routes.py:17-29 | for `Bearer <token>`, the decoder alone decides |
| `AuthRoutes.EmptyTokenNotDecoded` | application/auth/routes.py:22-30 | an empty token runs the handler whatever the decoder would say |
| `AuthRoutes.GetArgs` | application/auth/routes.py:33-43 | a string body is decoded once more, and a decoding failure is a 400 "Invalid JSON data supplied."; any other body is returned unchanged |
| `AuthRoutes.CredentialArgs` | application/auth/routes.py:48-56 | a JSON decoding failure passes through unchanged; the arguments pass iff they form an object whose keys are exactly `email` then `password`, and the result is then the (email, password) pair of values; any other object is a 400; a non-object raises |
| `AuthRoutes.FindUser` | application/auth/routes.py:88 | the lookup finds a user with that email iff one is stored |
| `AuthRoutes.UserStore.Register` | application/auth/routes.py:45-69 | non-string values are a 400 and add nothing; a stored email is a 400 "User already exists." and adds nothing; otherwise the answer is 201 and exactly one user (email, hashed password) is appended; emails stay unique |
| `AuthRoutes.UserStore.Login` | application/auth/routes.py:74-97 | argument failures pass through; a non-string email is a 500 "Error retrieving token: " with the escaping error; an unknown email is a 401 "Invalid email or password. Please try again." whatever the password; for a known user, a non-string password is that 500, a failed password check that 401, and otherwise 200 "Token generated with 5 minute expiration." with a token issued for the email; 500 and 200 occur only in those cases |
| `AuthRoutes.FindUserAppended` | application/auth/routes.py:88 | after appending a user whose email nobody had, the lookup of that email finds that user |
| `AuthRoutes.RegisterThenLogin` | tests/test_auth.py:88-102 | registering a new email and then logging in with the same credentials gives 201, then 200 with a token for the email, when the password checker accepts the hasher's output for the same password |
| `AuthRoutes.RegisterTwice` | tests/test_auth.py:50-65 | on an empty table the same credentials are first created (201), then refused as existing (400), with one user stored |
| `AuthRoutes.UnknownUserRefused` | tests/test_auth.py:103-112 | logging in with an email nobody registered is a 401 with no token |
| `Text.Split` | application/appointments/routes.py:74 | `split(sep)` gives at least one part, no part holds the separator, and joining the parts gives back the input |
| `Text.Decimal` | application/appointments/routes.py:109 | `str(n)`: at least one decimal digit, no leading zero, and the digits read back as `n` |
| `Seqs.Filter` | models/appointment.py:35-42 | the filtered list holds exactly the elements that satisfy the predicate, and is no longer than the input |
| `Scenario.SeedWithoutConflicts` | tests/create_dummy_data.py:28-42 | no seed appointment conflicts with the ones saved before it, including Jane's one-off, which is at the same time as John's |
| `Scenario.Seed` | tests/create_dummy_data.py:28-42 | saving the four seed appointments in order succeeds each time and yields the seed store |
| `Scenario.AddictionQuery` | tests/test_appointments.py:62-73 | `specialisms=Addiction` lists John's 60-minute one-off, then his 30-minute consultation |
| `Scenario.OneOffQuery` | tests/test_appointments.py:75-86 | `type=one-off` lists John's one-off, then Jane's |
| `Scenario.RepeatedOneOffOverlaps` | models/appointment.py:33-47 | booking John's seeded one-off again is refused as overlapping |
| `Scenario.AddSameRequestTwice` | tests/test_appointments.py:114-124 | the same valid request of non-negative duration sent twice, with the clock reading at each save and not going back, never succeeds twice; after a success the second answer is 400 "Overlapping with existing appointment." while the start has not passed, and 400 "Cannot add an appointment in the past." once it has |

## Left out

- HTTP transport: Flask routing, request objects, `make_response`/`jsonify`, and the logging in `generate_response` (application/main.py). Responses are a message with a status code; the extra reply fields (`appointments`, `token`) are explicit fields.
- JWT encoding, decoding and expiry, and werkzeug password hashing: all are foreign library calls, so they are parameters.
- SQLAlchemy sessions, commits and schema declarations. The appointments table is a sequence in `AppointmentStore`, the users table a sequence in `UserStore`, and therapists a read-only map from identity to therapist.
- Register's generic 500 "Error adding user." for database failures other than the duplicate email: database faults are not modelled.
- Login's 500 for database faults: only the exception raised by escaping a non-string value is modelled, with its message text for each JSON value type (null, boolean, integer, float, array, object).
- AppointmentRoutes.GetAppointments: lists the hits in store (insertion) order, because the query has no ORDER BY (application/appointments/routes.py:88-92) and the order the database returns rows in is not specified; it may differ, for example by following the index on the start time (models/appointment.py:13). The same order is assumed by `AppointmentRoutes.AddedAppointmentListedOnce`, `AppointmentRoutes.AddThenQuery`, `Scenario.AddictionQuery` and `Scenario.OneOffQuery`, whose claims about order hold for store order only.
- `html.escape` is treated as the identity. Values containing `&`, `<`, `>` or quotes would be stored, compared and echoed in escaped form; the model does not capture this.
- `strptime` and `int()` leniency, and the database's coercion of `therapist_id` and of the raw window strings in `between`: all are parameters.
- The sub-minute part of the wall clock: `now` is in whole minutes. Suppose the clock reads 12:41:30 and the start is 12:41. The source compares with seconds and refuses that start; the model compares whole minutes and accepts it.
- Python `datetime` range limits: a huge duration raises `OverflowError`, which escapes as a 500. Integers here are unbounded.
- The float minute division of the reply's `duration`: whole minutes are used. The reply's `time` is the start in minutes, not a formatted timestamp.
- The check-then-commit race between concurrent saves: the model is sequential.
- The optional client of an appointment: the booking path never sets it.
- Repeated query keys (the framework keeps the first value): arguments are a map.
- Duplicate keys in a JSON object: the decoder is assumed to yield distinct keys in order.
- Configuration, the command-line entry point, the WSGI entry point and the seeding script: only the seed data is used, as the `Scenario` module.
