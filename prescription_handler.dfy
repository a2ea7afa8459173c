/**
  `CreatePrescription` interleaves unchecked conversions of optional ids with
  the check of the required `medication`: `record_id` is converted before
  the check, `patient_id` and `doctor_id` after it.
 */
module PrescriptionHandler {
  import opened Common
  import opened Schema

  const InsertPrescriptionEndpoint := Endpoint(
    "sp_InsertPrescription",
    [OptionalNumber("record_id"), Required("medication", Text),
     OptionalNumber("patient_id"), OptionalNumber("doctor_id")],
    [OptionalNumber("record_id"), Required("medication", Text),
     OptionalNumber("patient_id"), OptionalNumber("doctor_id")])

  /** POST /api/prescriptions. 201 with an empty body on success. */
  function CreatePrescription(connected: bool, body: Decode<Fields>, exec: DbResult): (h: Handled)
    ensures !connected ==> h == ConnectFailure
    ensures connected && body.DecodeError? ==> h == Handled(BadRequest(body.msg), None)
    ensures h.call.Some? ==> connected && body.Decoded? && AsString(body.value, "medication").Some?
                             && !OptionalId(body.value, "record_id").AssertionPanic?
                             && !OptionalId(body.value, "patient_id").AssertionPanic?
                             && !OptionalId(body.value, "doctor_id").AssertionPanic?
    ensures h.call.Some? ==> (h.call.value
              == Call("sp_InsertPrescription",
                      [PNullInt(OptionalId(body.value, "record_id").id), PStr(AsString(body.value, "medication").value),
                       PNullInt(OptionalId(body.value, "patient_id").id), PNullInt(OptionalId(body.value, "doctor_id").id)]))
    ensures h.call.Some? && exec.DbOk? ==> h.resp == Created
    ensures h.call.Some? && exec.DbErr? ==> h.resp == ServerError(exec.msg)
    ensures h.resp.BadRequest? || h.resp.Panic? ==> h.call.None?
    ensures !h.resp.Ok?
  {
    if !connected then ConnectFailure
    else if body.DecodeError? then Handled(BadRequest(body.msg), None)
    else
      var data := body.value;
      var recordId := OptionalId(data, "record_id");
      if recordId.AssertionPanic? then Handled(Panic, None) else
      match AsString(data, "medication")
      case None => Reject("medication")
      case Some(medication) =>
        var patientId := OptionalId(data, "patient_id");
        if patientId.AssertionPanic? then Handled(Panic, None) else
        var doctorId := OptionalId(data, "doctor_id");
        if doctorId.AssertionPanic? then Handled(Panic, None) else
        Issue(Call("sp_InsertPrescription",
                   [PNullInt(recordId.id), PStr(medication), PNullInt(patientId.id), PNullInt(doctorId.id)]),
              exec, Created)
  }

  /** `CreatePrescription` is the reference behaviour of its endpoint
      description. */
  lemma CreatePrescriptionConforms(connected: bool, body: Decode<Fields>, exec: DbResult)
    ensures WellFormed(InsertPrescriptionEndpoint)
    ensures CreatePrescription(connected, body, exec)
         == Reference(InsertPrescriptionEndpoint, connected, body, exec, Created)
  {
    assert WellFormed(InsertPrescriptionEndpoint);
    if connected && body.Decoded? {
      var data := body.value;
      if OptionalId(data, "record_id").AssertionPanic? || AsString(data, "medication").None?
         || OptionalId(data, "patient_id").AssertionPanic? || OptionalId(data, "doctor_id").AssertionPanic? {
        PrescriptionConformsRefused(data, exec);
      } else {
        PrescriptionConformsAccepted(data, exec);
      }
    }
  }

  /** The verdict of the prescription checks, case by case in the handler's
      order. */
  lemma InsertPrescriptionVerdict(data: Fields)
    ensures Check(data, InsertPrescriptionEndpoint.checks)
         == if OptionalId(data, "record_id").AssertionPanic? then Panicked
            else if AsString(data, "medication").None? then Rejected("medication")
            else if OptionalId(data, "patient_id").AssertionPanic? then Panicked
            else if OptionalId(data, "doctor_id").AssertionPanic? then Panicked
            else Accepted
  {
    var checks := InsertPrescriptionEndpoint.checks;
    if OptionalId(data, "record_id").AssertionPanic? {
      CheckReportsFirstFailure(data, checks, 0);
    } else if AsString(data, "medication").None? {
      CheckReportsFirstFailure(data, checks, 1);
    } else if OptionalId(data, "patient_id").AssertionPanic? {
      CheckReportsFirstFailure(data, checks, 2);
    } else if OptionalId(data, "doctor_id").AssertionPanic? {
      CheckReportsFirstFailure(data, checks, 3);
    } else {
      CheckAccepts(data, checks);
    }
  }

  /** When every check accepts, the parameters in the endpoint's order are
      exactly those the handler passes. */
  lemma InsertPrescriptionParams(data: Fields)
    requires !OptionalId(data, "record_id").AssertionPanic?
    requires AsString(data, "medication").Some?
    requires !OptionalId(data, "patient_id").AssertionPanic?
    requires !OptionalId(data, "doctor_id").AssertionPanic?
    ensures forall s :: s in InsertPrescriptionEndpoint.params ==> StepResult(data, s) == Accepted
    ensures ParamsOf(data, InsertPrescriptionEndpoint.params)
         == [PNullInt(OptionalId(data, "record_id").id), PStr(AsString(data, "medication").value),
             PNullInt(OptionalId(data, "patient_id").id), PNullInt(OptionalId(data, "doctor_id").id)]
  {
    InsertPrescriptionVerdict(data);
    CheckAccepts(data, InsertPrescriptionEndpoint.checks);
    var ps := ParamsOf(data, InsertPrescriptionEndpoint.params);
    assert ps[0] == PNullInt(OptionalId(data, "record_id").id);
    assert ps[1] == PStr(AsString(data, "medication").value);
    assert ps[2] == PNullInt(OptionalId(data, "patient_id").id);
    assert ps[3] == PNullInt(OptionalId(data, "doctor_id").id);
  }

  lemma PrescriptionConformsAccepted(data: Fields, exec: DbResult)
    requires !OptionalId(data, "record_id").AssertionPanic?
    requires AsString(data, "medication").Some?
    requires !OptionalId(data, "patient_id").AssertionPanic?
    requires !OptionalId(data, "doctor_id").AssertionPanic?
    ensures WellFormed(InsertPrescriptionEndpoint)
    ensures CreatePrescription(true, Decoded(data), exec)
         == Reference(InsertPrescriptionEndpoint, true, Decoded(data), exec, Created)
  {
    assert WellFormed(InsertPrescriptionEndpoint);
    InsertPrescriptionVerdict(data);
    InsertPrescriptionParams(data);
  }

  lemma PrescriptionConformsRefused(data: Fields, exec: DbResult)
    requires OptionalId(data, "record_id").AssertionPanic? || AsString(data, "medication").None?
             || OptionalId(data, "patient_id").AssertionPanic? || OptionalId(data, "doctor_id").AssertionPanic?
    ensures WellFormed(InsertPrescriptionEndpoint)
    ensures CreatePrescription(true, Decoded(data), exec)
         == Reference(InsertPrescriptionEndpoint, true, Decoded(data), exec, Created)
  {
    assert WellFormed(InsertPrescriptionEndpoint);
    InsertPrescriptionVerdict(data);
  }

  /** A non-numeric `record_id` panics even when `medication` is missing. */
  lemma RecordIdConvertedBeforeMedication(data: Fields, exec: DbResult)
    requires "record_id" in data && !data["record_id"].JNum?
    ensures CreatePrescription(true, Decoded(data), exec) == Handled(Panic, None)
  {
  }

  /** With `medication` missing or not a string, a non-numeric `patient_id`
      or `doctor_id` is never converted: the answer is the `medication` 400,
      not a panic. */
  lemma MedicationCheckedBeforeLaterIds(data: Fields, exec: DbResult)
    requires "record_id" !in data || data["record_id"].JNum?
    requires AsString(data, "medication").None?
    ensures CreatePrescription(true, Decoded(data), exec) == Reject("medication")
  {
  }

  /** The optional ids are NULL when absent and the truncated number when
      present, so a present 0 is forwarded as 0 and never as NULL. */
  lemma PrescriptionOptionalIds(data: Fields, exec: DbResult)
    requires forall k :: k in data ==> k in {"record_id", "patient_id", "doctor_id"} ==> data[k].JNum?
    requires AsString(data, "medication").Some?
    ensures var c := CreatePrescription(true, Decoded(data), exec).call;
            && c.Some? && |c.value.params| == 4
            && c.value.params[1] == PStr(AsString(data, "medication").value)
            && c.value.params[0] == PNullInt(OptionalId(data, "record_id").id)
            && c.value.params[2] == PNullInt(OptionalId(data, "patient_id").id)
            && c.value.params[3] == PNullInt(OptionalId(data, "doctor_id").id)
  {
  }
}
