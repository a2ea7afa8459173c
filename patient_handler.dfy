/**
  The write handlers for patients: `CreatePatient` decodes into a patient
  record and forwards it unvalidated; `AdmitPatient` and `DischargePatient`
  decode into a field map and check numeric ids before the call.
 */
module PatientHandler {
  import opened Common
  import opened Models
  import opened Schema

  const AdmittedMsg := "Patient admitted successfully"
  const DischargedMsg := "Patient discharged successfully"

  /** POST /api/patients. The decoded record goes to `sp_InsertPatient`
      without any check of its fields and is echoed back on success. */
  function CreatePatient(connected: bool, body: Decode<Patient>, exec: DbResult): (h: Handled)
    ensures !connected ==> h == ConnectFailure
    ensures connected && body.DecodeError? ==> h == Handled(BadRequest(body.msg), None)
    ensures h.call.Some? <==> connected && body.Decoded?
    ensures h.call.Some? ==> h.call.value.proc == "sp_InsertPatient"
    ensures !h.resp.Panic? && !(h.resp.BadRequest? && h.call.Some?)
    ensures h.resp.Ok? ==> body.Decoded? && h.resp.body == PatientEcho(body.value)
  {
    if !connected then ConnectFailure
    else if body.DecodeError? then Handled(BadRequest(body.msg), None)
    else
      var p := body.value;
      Issue(Call("sp_InsertPatient", [PStr(p.name), PStr(p.email), PStr(p.gender), PStr(p.birthday)]),
            exec, Ok(PatientEcho(p)))
  }

  /** Every decodable patient, even one whose fields are all absent (and so
      empty strings), is inserted with exactly its name, email, gender and
      birthday, and a successful insert echoes the patient unchanged. */
  lemma CreatePatientRoundTrip(p: Patient, exec: DbResult)
    ensures CreatePatient(true, Decoded(p), exec).call
         == Some(Call("sp_InsertPatient", [PStr(p.name), PStr(p.email), PStr(p.gender), PStr(p.birthday)]))
    ensures exec.DbOk? ==> CreatePatient(true, Decoded(p), exec).resp == Ok(PatientEcho(p))
    ensures exec.DbErr? ==> CreatePatient(true, Decoded(p), exec).resp == ServerError(exec.msg)
  {
  }

  /** The check order and parameter order of `AdmitPatient`: `room_id` is
      checked first, but `patient_id` is passed first. */
  const AdmitEndpoint := Endpoint(
    "sp_AdmitPatient",
    [Required("room_id", Number), Required("patient_id", Number)],
    [Required("patient_id", Number), Required("room_id", Number)])

  /** POST /api/patients/admit. */
  function AdmitPatient(connected: bool, body: Decode<Fields>, exec: DbResult): (h: Handled)
    ensures !connected ==> h == ConnectFailure
    ensures connected && body.DecodeError? ==> h == Handled(BadRequest(body.msg), None)
    ensures h.call.Some? <==> connected && body.Decoded?
                               && AsNumber(body.value, "room_id").Some? && AsNumber(body.value, "patient_id").Some?
    ensures h.resp.BadRequest? ==> h.call.None?
    ensures !h.resp.Panic?
  {
    if !connected then ConnectFailure
    else if body.DecodeError? then Handled(BadRequest(body.msg), None)
    else
      var data := body.value;
      match AsNumber(data, "room_id")
      case None => Reject("room_id")
      case Some(roomId) =>
        match AsNumber(data, "patient_id")
        case None => Reject("patient_id")
        case Some(patientId) =>
          Issue(Call("sp_AdmitPatient", [PInt(Trunc(patientId)), PInt(Trunc(roomId))]),
                exec, Ok(Message(AdmittedMsg)))
  }

  /** `AdmitPatient` is the reference behaviour of its endpoint description. */
  lemma AdmitPatientConforms(connected: bool, body: Decode<Fields>, exec: DbResult)
    ensures WellFormed(AdmitEndpoint)
    ensures AdmitPatient(connected, body, exec) == Reference(AdmitEndpoint, connected, body, exec, Ok(Message(AdmittedMsg)))
  {
    assert WellFormed(AdmitEndpoint);
    if connected && body.Decoded? {
      var data, checks := body.value, AdmitEndpoint.checks;
      if AsNumber(data, "room_id").None? {
        CheckReportsFirstFailure(data, checks, 0);
      } else if AsNumber(data, "patient_id").None? {
        CheckReportsFirstFailure(data, checks, 1);
      } else {
        CheckAccepts(data, checks);
        var ps := ParamsOf(data, AdmitEndpoint.params);
        assert ps == [ParamFor(data, AdmitEndpoint.params[0]), ParamFor(data, AdmitEndpoint.params[1])];
      }
    }
  }

  /** A body missing `room_id` is rejected naming `room_id`, whatever
      `patient_id` holds, including when it is missing too. */
  lemma AdmitNamesRoomFirst(data: Fields, exec: DbResult)
    requires AsNumber(data, "room_id").None?
    ensures AdmitPatient(true, Decoded(data), exec) == Reject("room_id")
  {
    AdmitPatientConforms(true, Decoded(data), exec);
    CheckReportsFirstFailure(data, AdmitEndpoint.checks, 0);
  }

  /** A present `room_id` or `patient_id` that is not a JSON number (a
      string, a bool, null, ...) is treated as missing. */
  lemma AdmitWrongTypeIsMissing(data: Fields, key: string, v: JsonVal, exec: DbResult)
    requires key == "room_id" || key == "patient_id"
    requires !v.JNum?
    ensures AdmitPatient(true, Decoded(data[key := v]), exec) == AdmitPatient(true, Decoded(data - {key}), exec)
    ensures AdmitPatient(true, Decoded(data - {key}), exec).resp.BadRequest?
  {
    AdmitPatientConforms(true, Decoded(data[key := v]), exec);
    AdmitPatientConforms(true, Decoded(data - {key}), exec);
    WrongKindRejectedAsAbsent(AdmitEndpoint, true, data, exec, Ok(Message(AdmittedMsg)), key, Number, v);
  }

  /** On success the call passes the truncated patient id, then the room id. */
  lemma AdmitPatientCall(data: Fields, patient: real, room: real, exec: DbResult)
    requires AsNumber(data, "patient_id") == Some(patient) && AsNumber(data, "room_id") == Some(room)
    ensures AdmitPatient(true, Decoded(data), exec).call
         == Some(Call("sp_AdmitPatient", [PInt(Trunc(patient)), PInt(Trunc(room))]))
    ensures exec.DbOk? ==> AdmitPatient(true, Decoded(data), exec).resp == Ok(Message(AdmittedMsg))
    ensures exec.DbErr? ==> AdmitPatient(true, Decoded(data), exec).resp == ServerError(exec.msg)
  {
  }

  const DischargeEndpoint := Endpoint(
    "sp_DischargePatient",
    [Required("patient_id", Number)],
    [Required("patient_id", Number)])

  /** POST /api/patients/{id}/discharge. The `{id}` path segment is accepted
      but never read: the patient comes from the body's `patient_id`. */
  function DischargePatient(connected: bool, pathId: string, body: Decode<Fields>, exec: DbResult): (h: Handled)
    ensures !connected ==> h == ConnectFailure
    ensures connected && body.DecodeError? ==> h == Handled(BadRequest(body.msg), None)
    ensures h.call.Some? <==> connected && body.Decoded? && AsNumber(body.value, "patient_id").Some?
    ensures h.call.Some? ==> h.call.value == Call("sp_DischargePatient", [PInt(Trunc(AsNumber(body.value, "patient_id").value))])
    ensures connected && body.Decoded? && AsNumber(body.value, "patient_id").None? ==> h == Reject("patient_id")
    ensures h.call.Some? && exec.DbOk? ==> h.resp == Ok(Message(DischargedMsg))
    ensures h.call.Some? && exec.DbErr? ==> h.resp == ServerError(exec.msg)
    ensures h.resp.Ok? ==> h.resp.body == Message(DischargedMsg)
  {
    if !connected then ConnectFailure
    else if body.DecodeError? then Handled(BadRequest(body.msg), None)
    else
      match AsNumber(body.value, "patient_id")
      case None => Reject("patient_id")
      case Some(patientId) =>
        Issue(Call("sp_DischargePatient", [PInt(Trunc(patientId))]), exec, Ok(Message(DischargedMsg)))
  }

  lemma DischargePatientConforms(connected: bool, pathId: string, body: Decode<Fields>, exec: DbResult)
    ensures WellFormed(DischargeEndpoint)
    ensures DischargePatient(connected, pathId, body, exec)
         == Reference(DischargeEndpoint, connected, body, exec, Ok(Message(DischargedMsg)))
  {
    if connected && body.Decoded? {
      var data, checks := body.value, DischargeEndpoint.checks;
      if AsNumber(data, "patient_id").None? {
        CheckReportsFirstFailure(data, checks, 0);
      } else {
        CheckAccepts(data, checks);
        assert ParamsOf(data, DischargeEndpoint.params) == [ParamFor(data, DischargeEndpoint.params[0])];
      }
    }
  }

  /** Two requests that differ only in the path id are handled alike. */
  lemma DischargeIgnoresPathId(connected: bool, id1: string, id2: string, body: Decode<Fields>, exec: DbResult)
    ensures DischargePatient(connected, id1, body, exec) == DischargePatient(connected, id2, body, exec)
  {
  }
}
