/**
  `CreateCheckup` converts three optional ids with unchecked type
  assertions before checking two required strings; `UpdateCheckup` forwards
  the path id and the body's result.
 */
module CheckupHandler {
  import opened Common
  import opened Models
  import opened Schema

  const InsertCheckupEndpoint := Endpoint(
    "sp_InsertCheckup",
    [OptionalNumber("record_id"), OptionalNumber("patient_id"), OptionalNumber("doctor_id"),
     Required("checkup_date", Text), Required("checkup_type", Text)],
    [OptionalNumber("record_id"), Required("checkup_date", Text), Required("checkup_type", Text),
     OptionalNumber("patient_id"), OptionalNumber("doctor_id")])

  /** POST /api/checkups. 201 with an empty body on success. */
  function CreateCheckup(connected: bool, body: Decode<Fields>, exec: DbResult): (h: Handled)
    ensures !connected ==> h == ConnectFailure
    ensures connected && body.DecodeError? ==> h == Handled(BadRequest(body.msg), None)
    ensures h.call.Some? ==> connected && body.Decoded?
                             && !OptionalId(body.value, "record_id").AssertionPanic?
                             && !OptionalId(body.value, "patient_id").AssertionPanic?
                             && !OptionalId(body.value, "doctor_id").AssertionPanic?
                             && AsString(body.value, "checkup_date").Some?
                             && AsString(body.value, "checkup_type").Some?
    ensures h.call.Some? ==> (h.call.value
              == Call("sp_InsertCheckup",
                      [PNullInt(OptionalId(body.value, "record_id").id), PStr(AsString(body.value, "checkup_date").value),
                       PStr(AsString(body.value, "checkup_type").value),
                       PNullInt(OptionalId(body.value, "patient_id").id), PNullInt(OptionalId(body.value, "doctor_id").id)]))
    ensures h.call.Some? && exec.DbOk? ==> h.resp == Created
    ensures h.call.Some? && exec.DbErr? ==> h.resp == ServerError(exec.msg)
    ensures h.resp.BadRequest? || h.resp.Panic? ==> h.call.None?
    ensures !h.resp.Ok?
  {
    if !connected then ConnectFailure
    else if body.DecodeError? then Handled(BadRequest(body.msg), None)
    else
      var data := body.value;
      var recordId := OptionalId(data, "record_id");
      if recordId.AssertionPanic? then Handled(Panic, None) else
      var patientId := OptionalId(data, "patient_id");
      if patientId.AssertionPanic? then Handled(Panic, None) else
      var doctorId := OptionalId(data, "doctor_id");
      if doctorId.AssertionPanic? then Handled(Panic, None) else
      match AsString(data, "checkup_date")
      case None => Reject("checkup_date")
      case Some(date) =>
        match AsString(data, "checkup_type")
        case None => Reject("checkup_type")
        case Some(kind) =>
          Issue(Call("sp_InsertCheckup",
                     [PNullInt(recordId.id), PStr(date), PStr(kind), PNullInt(patientId.id), PNullInt(doctorId.id)]),
                exec, Created)
  }

  /** `CreateCheckup` is the reference behaviour of its endpoint description. */
  lemma CreateCheckupConforms(connected: bool, body: Decode<Fields>, exec: DbResult)
    ensures WellFormed(InsertCheckupEndpoint)
    ensures CreateCheckup(connected, body, exec) == Reference(InsertCheckupEndpoint, connected, body, exec, Created)
  {
    InsertCheckupWellFormed();
    if connected && body.Decoded? {
      CheckupConformsOn(body.value, exec);
    }
  }

  lemma CheckupConformsOn(data: Fields, exec: DbResult)
    ensures WellFormed(InsertCheckupEndpoint)
    ensures CreateCheckup(true, Decoded(data), exec) == Reference(InsertCheckupEndpoint, true, Decoded(data), exec, Created)
  {
    if OptionalId(data, "record_id").AssertionPanic? || OptionalId(data, "patient_id").AssertionPanic?
       || OptionalId(data, "doctor_id").AssertionPanic? {
      CheckupConformsPanicked(data, exec);
    } else if AsString(data, "checkup_date").None? || AsString(data, "checkup_type").None? {
      CheckupConformsRejected(data, exec);
    } else {
      CheckupConformsAccepted(data, exec);
    }
  }

  /** The verdict of the checkup checks, case by case in the handler's order. */
  lemma InsertCheckupVerdict(data: Fields)
    ensures Check(data, InsertCheckupEndpoint.checks)
         == if OptionalId(data, "record_id").AssertionPanic? then Panicked
            else if OptionalId(data, "patient_id").AssertionPanic? then Panicked
            else if OptionalId(data, "doctor_id").AssertionPanic? then Panicked
            else if AsString(data, "checkup_date").None? then Rejected("checkup_date")
            else if AsString(data, "checkup_type").None? then Rejected("checkup_type")
            else Accepted
  {
    var checks := InsertCheckupEndpoint.checks;
    if OptionalId(data, "record_id").AssertionPanic? {
      CheckReportsFirstFailure(data, checks, 0);
    } else if OptionalId(data, "patient_id").AssertionPanic? {
      CheckReportsFirstFailure(data, checks, 1);
    } else if OptionalId(data, "doctor_id").AssertionPanic? {
      CheckReportsFirstFailure(data, checks, 2);
    } else if AsString(data, "checkup_date").None? {
      CheckReportsFirstFailure(data, checks, 3);
    } else if AsString(data, "checkup_type").None? {
      CheckReportsFirstFailure(data, checks, 4);
    } else {
      CheckAccepts(data, checks);
    }
  }

  /** When every check accepts, the parameters in the endpoint's order are
      exactly those the handler passes. */
  lemma InsertCheckupParams(data: Fields)
    requires !OptionalId(data, "record_id").AssertionPanic?
    requires !OptionalId(data, "patient_id").AssertionPanic?
    requires !OptionalId(data, "doctor_id").AssertionPanic?
    requires AsString(data, "checkup_date").Some? && AsString(data, "checkup_type").Some?
    ensures forall s :: s in InsertCheckupEndpoint.params ==> StepResult(data, s) == Accepted
    ensures ParamsOf(data, InsertCheckupEndpoint.params)
         == [PNullInt(OptionalId(data, "record_id").id), PStr(AsString(data, "checkup_date").value),
             PStr(AsString(data, "checkup_type").value), PNullInt(OptionalId(data, "patient_id").id),
             PNullInt(OptionalId(data, "doctor_id").id)]
  {
    InsertCheckupVerdict(data);
    CheckAccepts(data, InsertCheckupEndpoint.checks);
    var order := InsertCheckupEndpoint.params;
    assert forall s :: s in order ==> s in InsertCheckupEndpoint.checks;
    var ps := ParamsOf(data, order);
    assert ps[0] == PNullInt(OptionalId(data, "record_id").id);
    assert ps[1] == PStr(AsString(data, "checkup_date").value);
    assert ps[2] == PStr(AsString(data, "checkup_type").value);
    assert ps[3] == PNullInt(OptionalId(data, "patient_id").id);
    assert ps[4] == PNullInt(OptionalId(data, "doctor_id").id);
  }

  lemma CheckupConformsAccepted(data: Fields, exec: DbResult)
    requires !OptionalId(data, "record_id").AssertionPanic?
    requires !OptionalId(data, "patient_id").AssertionPanic?
    requires !OptionalId(data, "doctor_id").AssertionPanic?
    requires AsString(data, "checkup_date").Some? && AsString(data, "checkup_type").Some?
    ensures WellFormed(InsertCheckupEndpoint)
    ensures CreateCheckup(true, Decoded(data), exec) == Reference(InsertCheckupEndpoint, true, Decoded(data), exec, Created)
  {
    InsertCheckupWellFormed();
    InsertCheckupVerdict(data);
    InsertCheckupParams(data);
    var call := Call("sp_InsertCheckup", ParamsOf(data, InsertCheckupEndpoint.params));
    assert CreateCheckup(true, Decoded(data), exec) == Issue(call, exec, Created);
  }

  lemma InsertCheckupWellFormed()
    ensures WellFormed(InsertCheckupEndpoint)
  {
  }

  lemma CheckupConformsPanicked(data: Fields, exec: DbResult)
    requires OptionalId(data, "record_id").AssertionPanic? || OptionalId(data, "patient_id").AssertionPanic?
             || OptionalId(data, "doctor_id").AssertionPanic?
    ensures WellFormed(InsertCheckupEndpoint)
    ensures CreateCheckup(true, Decoded(data), exec) == Reference(InsertCheckupEndpoint, true, Decoded(data), exec, Created)
  {
    InsertCheckupWellFormed();
    InsertCheckupVerdict(data);
  }

  lemma CheckupConformsRejected(data: Fields, exec: DbResult)
    requires !OptionalId(data, "record_id").AssertionPanic?
    requires !OptionalId(data, "patient_id").AssertionPanic?
    requires !OptionalId(data, "doctor_id").AssertionPanic?
    requires AsString(data, "checkup_date").None? || AsString(data, "checkup_type").None?
    ensures WellFormed(InsertCheckupEndpoint)
    ensures CreateCheckup(true, Decoded(data), exec) == Reference(InsertCheckupEndpoint, true, Decoded(data), exec, Created)
  {
    InsertCheckupWellFormed();
    InsertCheckupVerdict(data);
  }

  /** A present id that is not a JSON number, JSON `null` included, panics,
      and it does so before the required fields are looked at. */
  lemma CheckupNonNumericIdPanics(data: Fields, key: string, exec: DbResult)
    requires key == "record_id" || key == "patient_id" || key == "doctor_id"
    requires key in data && !data[key].JNum?
    ensures CreateCheckup(true, Decoded(data), exec) == Handled(Panic, None)
  {
  }

  /** `checkup_date` is checked before `checkup_type`. */
  lemma CheckupDateCheckedFirst(data: Fields, exec: DbResult)
    requires forall key :: key in data ==> key in {"record_id", "patient_id", "doctor_id"} ==> data[key].JNum?
    requires AsString(data, "checkup_date").None?
    ensures CreateCheckup(true, Decoded(data), exec) == Reject("checkup_date")
  {
  }

  /** An absent optional id is forwarded as NULL and a present 0 as the
      integer 0: the two calls differ in exactly that parameter. */
  lemma CheckupAbsentVersusZero(data: Fields, key: string, exec: DbResult)
    requires key == "record_id" || key == "patient_id" || key == "doctor_id"
    requires forall k :: k in data ==> k in {"record_id", "patient_id", "doctor_id"} ==> data[k].JNum?
    requires AsString(data, "checkup_date").Some? && AsString(data, "checkup_type").Some?
    ensures var absent := CreateCheckup(true, Decoded(data - {key}), exec).call;
            var zero := CreateCheckup(true, Decoded(data[key := JNum(0.0)]), exec).call;
            var i := if key == "record_id" then 0 else if key == "patient_id" then 3 else 4;
            && absent.Some? && zero.Some?
            && absent.value.params[i] == PNullInt(None)
            && zero.value.params[i] == PNullInt(Some(0))
  {
    assert (data - {key})["checkup_date"] == data["checkup_date"];
    assert (data - {key})["checkup_type"] == data["checkup_type"];
  }

  /** PUT /api/checkups/{id}. The path id is forwarded unparsed with the
      decoded `result`; nothing is validated, so a missing result is sent as
      the empty string. The decoded checkup is echoed on success. */
  function UpdateCheckup(id: string, connected: bool, body: Decode<Checkup>, exec: DbResult): (h: Handled)
    ensures !connected ==> h == ConnectFailure
    ensures connected && body.DecodeError? ==> h == Handled(BadRequest(body.msg), None)
    ensures h.call.Some? <==> connected && body.Decoded?
    ensures h.call.Some? ==> h.call.value == Call("sp_UpdateCheckup", [PStr(id), PStr(body.value.result)])
    ensures h.call.Some? && exec.DbOk? ==> h.resp == Ok(CheckupEcho(body.value))
    ensures h.call.Some? && exec.DbErr? ==> h.resp == ServerError(exec.msg)
    ensures h.resp.Ok? ==> body.Decoded? && h.resp.body == CheckupEcho(body.value)
    ensures !h.resp.Panic? && !h.resp.Created?
  {
    if !connected then ConnectFailure
    else if body.DecodeError? then Handled(BadRequest(body.msg), None)
    else
      var checkup := body.value;
      Issue(Call("sp_UpdateCheckup", [PStr(id), PStr(checkup.result)]), exec, Ok(CheckupEcho(checkup)))
  }

  /** A body without `result` decodes to the zero checkup and still updates. */
  lemma UpdateWithoutResult(id: string, exec: DbResult)
    ensures UpdateCheckup(id, true, Decoded(EmptyCheckup), exec).call
         == Some(Call("sp_UpdateCheckup", [PStr(id), PStr("")]))
    ensures exec.DbOk? ==> UpdateCheckup(id, true, Decoded(EmptyCheckup), exec).resp == Ok(CheckupEcho(EmptyCheckup))
  {
  }
}
