# Hospital API request mapper, modelled in Dafny

The hospital-management API is a thin HTTP layer over MySQL stored procedures.
Admission, scheduling and uniqueness rules live in those procedures. The part
the Go code decides for itself is the request-validation and parameter-mapping
step of its write handlers:

1. decode the request body, either into a `map[string]interface{}` or into a
   record;
2. check the required fields in a fixed order with Go type assertions, and
   answer 400 `Missing required field: <name>` for the first one that is
   absent or of the wrong JSON type;
3. turn the optional numeric ids into nullable integers (with an unchecked
   `val.(float64)` that panics on a non-number);
4. issue exactly one stored-procedure call with positional parameters, and
   answer 201, 200 with a JSON body, or 500 with the driver's message.

Each handler is modelled as a pure function. Its inputs are:

- whether the connection succeeded;
- the decode result: `DecodeError(msg)`, or the decoded value (a field map
  `map<string, JsonVal>` or a record);
- the path id where the route has one;
- the outcome of the call.

It returns a `Handled(resp, call)`. `resp` is one of `BadRequest(msg)`,
`ServerError(msg)`, `Panic`, `Created` or `Ok(body)`. `call` is `None` or
`Some(Call(proc, params))`, and each parameter is a string, an int or a
nullable int.

Files:

- `models.dfy` (`Models`): the patient and checkup records.
- `common.dfy` (`Common`): JSON values, the decode result, Go's two-valued
  type assertions (`AsNumber`, `AsString`), the unchecked optional-id
  conversion (`OptionalId`), truncation toward zero (`Trunc`), parameters,
  calls and responses.
- `schema.dfy` (`Schema`): a declarative description of a map-decoding
  endpoint. It lists the checks in the order they run, the procedure, and the
  parameter order. `Reference` gives the behaviour every such endpoint should
  have, and it comes with general lemmas: the first failing check decides,
  all checks accepting is the only way to a call, and a wrong JSON type is
  treated as absent.
- `patient_handler.dfy`, `appointment_handler.dfy`, `checkup_handler.dfy`,
  `prescription_handler.dfy`: one module per source file. Each handler is
  written straight-line, mirroring the Go code. For every map-decoding
  handler a `…Conforms` lemma proves it equal to `Reference` applied to its
  endpoint description. Further lemmas state the behaviours specific to each
  handler.

## Behaviour worth noting

- `CreatePatient` checks none of the patient's fields. Any body that decodes
  is inserted, and absent strings are sent as `""`.
- `UpdateCheckup` does not check `result`, so a missing result is sent as
  `""`.
- A present optional id that is not a JSON number (JSON `null` included)
  makes the unchecked `val.(float64)` panic instead of being forwarded.
- The discharge route carries a `{id}` path segment (main.go:29). The handler
  never reads it and takes the patient from the body's `patient_id`.
- An empty listing encodes a nil Go slice, which gives JSON `null` rather
  than `[]`. The list handlers are not part of this model (see below).

## Model

| member | source | states |
|---|---|---|
| `Common.Reject` | api/patient_handler.go:90-94 | a failed required-field check answers 400 "Missing required field: <name>" and issues no call |
| `Common.Issue` | api/appointment_handler.go:54-67 | the call is issued; success gives the handler's success response, a call error gives 500 with the driver's message |
| `Common.AsNumber` | api/patient_handler.go:90 | `data[key].(float64)` yields a value exactly when the key is present and holds a JSON number |
| `Common.AsString` | api/appointment_handler.go:29 | `data[key].(string)` yields a value exactly when the key is present and holds a JSON string |
| `Common.Trunc` | api/appointment_handler.go:57 | float-to-integer conversion drops the fraction toward zero: the result lies within 1 of the input, on its side of zero |
| `Common.TruncIsNotRounding` | api/appointment_handler.go:57 | 3.7 becomes 3, 3.0 becomes 3 and -3.7 becomes -3 (truncation, not rounding) |
| `Common.OptionalId` | api/checkup_handler.go:29-33 | an absent optional id is NULL, a number is its truncation, any other present value (null included) panics |
| `Schema.StepResult` | api/checkup_handler.go:29-57 | a required step rejects, naming its field, exactly when the field is absent or of the wrong kind; an optional step panics exactly when the field is present and not a number |
| `Schema.Check` | api/appointment_handler.go:29-51 | a run of checks rejects only with the name of one of its required steps, and panics only if it has an optional step |
| `Schema.CheckAccepts` | api/appointment_handler.go:29-54 | the run accepts if and only if every check accepts |
| `Schema.CheckReportsFirstFailure` | api/appointment_handler.go:29-51 | the verdict is that of the first check that does not accept, so the 400 names the first failing field |
| `Schema.ParamFor` | api/checkup_handler.go:60-67 | a checked string is passed as is, a checked number as its truncation toward zero, an optional id as NULL when absent and as its truncation when present |
| `Schema.ParamsOf` | api/appointment_handler.go:54-60 | one parameter per step of the endpoint's parameter order, in that order |
| `Schema.Reference` | api/prescription_handler.go:10-65 | a connection failure gives 500 before decoding; a decode error gives 400 with the decoder's message; a call happens if and only if every check accepts; a rejection names the first failing field; a panic issues no call; once the call is issued, success gives the handler's success response and a call error gives 500 with the driver's message |
| `Schema.WrongKindActsAsAbsent` | api/appointment_handler.go:29-50 | a field holding a value of the wrong JSON type gets the same verdict as the absent field |
| `Schema.WrongKindRejectedAsAbsent` | api/patient_handler.go:90-99 | at endpoint level, a required field of the wrong type gives the same response as a missing one, and no call |
| `Schema.AbsentIsNullZeroIsZero` | api/checkup_handler.go:29-45 | an absent optional id becomes NULL, while a present 0 becomes the integer 0 |
| `PatientHandler.CreatePatient` | api/patient_handler.go:11-40 | connection failure gives 500; decode error gives 400; any decoded patient leads to `sp_InsertPatient` and never to a 400 or panic; success echoes the decoded patient |
| `PatientHandler.CreatePatientRoundTrip` | api/patient_handler.go:21-39 | the insert is exactly `sp_InsertPatient(name, email, gender, birthday)` of the decoded patient; success echoes the patient unchanged, and a call error gives 500 |
| `PatientHandler.AdmitPatient` | api/patient_handler.go:74-114 | connection and decode failures come first; a call is issued exactly when both `room_id` and `patient_id` are JSON numbers; no 400 issues a call; never panics |
| `PatientHandler.AdmitPatientConforms` | api/patient_handler.go:90-113 | AdmitPatient equals the reference behaviour for checks [room_id, patient_id] and parameters [patient_id, room_id] |
| `PatientHandler.AdmitNamesRoomFirst` | api/patient_handler.go:90-100 | without a numeric `room_id` the 400 names `room_id`, whatever `patient_id` is, missing included |
| `PatientHandler.AdmitWrongTypeIsMissing` | api/patient_handler.go:90-99 | a string, bool, null or other non-number `room_id`/`patient_id` gets the same 400 as an absent one |
| `PatientHandler.AdmitPatientCall` | api/patient_handler.go:103-113 | success calls `sp_AdmitPatient(trunc(patient_id), trunc(room_id))` and replies "Patient admitted successfully" |
| `PatientHandler.DischargePatient` | api/patient_handler.go:116-150 | the call happens exactly when `patient_id` is a number and is `sp_DischargePatient(trunc(patient_id))`; otherwise the 400 names `patient_id`; a successful call answers "Patient discharged successfully", a failed one 500 with the driver's message |
| `PatientHandler.DischargePatientConforms` | api/patient_handler.go:132-149 | DischargePatient equals the reference behaviour for the single check `patient_id` |
| `PatientHandler.DischargeIgnoresPathId` | api/patient_handler.go:132-142 | the path `{id}` has no influence: two requests that differ only in it are handled alike |
| `AppointmentHandler.CreateAppointment` | api/appointment_handler.go:13-68 | a call happens exactly when `email`, `appointment_date`, `appointment_start_time` are strings and `doctor_id` a number, and it is `sp_ScheduleAppointment(email, trunc(doctor_id), date, start)`; no 400 issues a call; a successful call answers 201 with no body, a failed one 500 with the driver's message |
| `AppointmentHandler.CreateAppointmentConforms` | api/appointment_handler.go:29-60 | CreateAppointment equals the reference behaviour for checks email, doctor_id, appointment_date, appointment_start_time, passed in the same order |
| `AppointmentHandler.ScheduleVerdict` | api/appointment_handler.go:29-51 | the checks end with the 400 for the first of email, doctor_id, appointment_date, appointment_start_time that is absent or mistyped, and accept only when none is |
| `AppointmentHandler.AppointmentWrongTypeIsMissing` | api/appointment_handler.go:29-50 | a required field of the wrong JSON type (e.g. a numeric `email`) is reported as missing, and no call is made |
| `AppointmentHandler.AppointmentTruncatesDoctorId` | api/appointment_handler.go:54-60 | `doctor_id` 3.7 is passed as 3, between the email and the date |
| `AppointmentHandler.ListDoctorAppointments` | api/appointment_handler.go:70-104 | when connected, the call is `sp_GetDoctorAppointments(id)` with the raw path string; a failure of the query or of its row scan gives 500 |
| `AppointmentHandler.DoctorIdNotParsed` | api/appointment_handler.go:79-86 | different id strings give different calls: the id is never parsed |
| `CheckupHandler.CreateCheckup` | api/checkup_handler.go:13-75 | a call needs no panicking id and `checkup_date` and `checkup_type` as strings, and it is `sp_InsertCheckup(record_id, date, type, patient_id, doctor_id)` with each id NULL or truncated; no 400 or panic issues a call; a successful call answers 201 with no body, a failed one 500 with the driver's message |
| `CheckupHandler.CreateCheckupConforms` | api/checkup_handler.go:29-74 | CreateCheckup equals the reference behaviour for the three optional ids, then `checkup_date`, `checkup_type`, with parameters record_id, date, type, patient_id, doctor_id |
| `CheckupHandler.InsertCheckupVerdict` | api/checkup_handler.go:29-57 | any non-numeric optional id panics before a required field is looked at; then `checkup_date`, then `checkup_type` is named |
| `CheckupHandler.InsertCheckupParams` | api/checkup_handler.go:60-67 | the parameters in the endpoint's order are exactly those the handler passes |
| `CheckupHandler.CheckupNonNumericIdPanics` | api/checkup_handler.go:29-47 | a present `record_id`, `patient_id` or `doctor_id` that is not a number (null included) panics with no call, even if required fields are missing |
| `CheckupHandler.CheckupDateCheckedFirst` | api/checkup_handler.go:47-57 | with valid ids and no string `checkup_date`, the 400 names `checkup_date` |
| `CheckupHandler.CheckupAbsentVersusZero` | api/checkup_handler.go:29-45 | an absent id is passed as NULL, a present 0 as the integer 0, at its position in the call |
| `CheckupHandler.UpdateCheckup` | api/checkup_handler.go:77-107 | any decoded checkup leads to `sp_UpdateCheckup(id, result)` with the raw path id; a successful call echoes the decoded checkup, a failed one answers 500 with the driver's message |
| `CheckupHandler.UpdateWithoutResult` | api/checkup_handler.go:89-100 | a body without `result` still updates, passing `""` |
| `PrescriptionHandler.CreatePrescription` | api/prescription_handler.go:10-65 | a call needs no panicking id and `medication` as a string, and it is `sp_InsertPrescription(record_id, medication, patient_id, doctor_id)` with each id NULL or truncated; no 400 or panic issues a call; a successful call answers 201 with no body, a failed one 500 with the driver's message |
| `PrescriptionHandler.CreatePrescriptionConforms` | api/prescription_handler.go:26-64 | CreatePrescription equals the reference behaviour for record_id, medication, patient_id, doctor_id, passed in that order |
| `PrescriptionHandler.InsertPrescriptionVerdict` | api/prescription_handler.go:26-48 | a bad `record_id` panics first, then a missing `medication` is named, and only then can a bad `patient_id` or `doctor_id` panic |
| `PrescriptionHandler.InsertPrescriptionParams` | api/prescription_handler.go:51-57 | the parameters in the endpoint's order are exactly those the handler passes |
| `PrescriptionHandler.RecordIdConvertedBeforeMedication` | api/prescription_handler.go:26-36 | a non-numeric `record_id` panics even when `medication` is missing |
| `PrescriptionHandler.MedicationCheckedBeforeLaterIds` | api/prescription_handler.go:32-48 | with a valid or absent `record_id` and no string `medication`, the answer is the `medication` 400 whatever `patient_id` and `doctor_id` hold |
| `PrescriptionHandler.PrescriptionOptionalIds` | api/prescription_handler.go:26-57 | with numeric ids and a string medication the call is made; each id is NULL when absent and its truncation when present |

## Left out

- Database access (`db.ConnectDB`, `Exec`, `Query`, closing connections) is foreign I/O. The outcomes of connecting and of the call are inputs, and the call is a recorded value.
- The stored procedures' own rules (admission, discharge, scheduling, inserts) are not in this code.
- The row-scanning list handlers are not modelled: `ListPatients`, `ListAdmittedPatients`, `ListDoctors`, `ListRecords`, `ListAvailableRooms`, and the row loop of `ListDoctorAppointments`. They are pass-through loops over `sql.Rows`. An empty result encodes a nil slice as JSON `null`.
- `AppointmentHandler.ListDoctorAppointments`: its `query` input is the outcome of the query and of the scan of its rows together, so a scan failure after a successful query is a `DbErr`. The rows returned are not modelled.
- JSON parsing and encoding are library code, so the decode result is an input. This covers decoding into `Patient` and `Checkup` records, where absent fields become zero values, a wrong type is a decode error, and keys match case-insensitively. A JSON `null` body decodes to a nil map, which behaves as an empty field map.
- float64 details: numbers are reals. Precision lost when parsing, and conversions out of the 64-bit range, are not modelled.
- `Panic` stands for the runtime panic of a failed type assertion. What `net/http` then does (recover, log, drop the connection) is not modelled.
- `http.Error` appends a newline to its message; messages are modelled without it.
- Router wiring and port binding (main.go) are not modelled, nor is concurrency between requests: the handlers share no in-process state.
- models/checkup.go is not part of this model. The fields of `Models.Checkup` other than `result`, which is the only one the handler reads, follow the data model the API describes for checkups.
