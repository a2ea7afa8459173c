/**
  `CreateAppointment` checks four required fields in a fixed order before
  scheduling; `ListDoctorAppointments` forwards its path id unparsed.
 */
module AppointmentHandler {
  import opened Common
  import opened Schema

  const ScheduleEndpoint := Endpoint(
    "sp_ScheduleAppointment",
    [Required("email", Text), Required("doctor_id", Number),
     Required("appointment_date", Text), Required("appointment_start_time", Text)],
    [Required("email", Text), Required("doctor_id", Number),
     Required("appointment_date", Text), Required("appointment_start_time", Text)])

  /** POST /api/appointments. 201 with an empty body on success. */
  function CreateAppointment(connected: bool, body: Decode<Fields>, exec: DbResult): (h: Handled)
    ensures !connected ==> h == ConnectFailure
    ensures connected && body.DecodeError? ==> h == Handled(BadRequest(body.msg), None)
    ensures h.call.Some? <==> connected && body.Decoded?
                               && AsString(body.value, "email").Some? && AsNumber(body.value, "doctor_id").Some?
                               && AsString(body.value, "appointment_date").Some?
                               && AsString(body.value, "appointment_start_time").Some?
    ensures h.call.Some? ==> (h.call.value
              == Call("sp_ScheduleAppointment",
                      [PStr(AsString(body.value, "email").value), PInt(Trunc(AsNumber(body.value, "doctor_id").value)),
                       PStr(AsString(body.value, "appointment_date").value),
                       PStr(AsString(body.value, "appointment_start_time").value)]))
    ensures h.call.Some? && exec.DbOk? ==> h.resp == Created
    ensures h.call.Some? && exec.DbErr? ==> h.resp == ServerError(exec.msg)
    ensures h.resp.BadRequest? ==> h.call.None?
    ensures !h.resp.Panic? && !h.resp.Ok?
  {
    if !connected then ConnectFailure
    else if body.DecodeError? then Handled(BadRequest(body.msg), None)
    else
      var data := body.value;
      match AsString(data, "email")
      case None => Reject("email")
      case Some(email) =>
        match AsNumber(data, "doctor_id")
        case None => Reject("doctor_id")
        case Some(doctorId) =>
          match AsString(data, "appointment_date")
          case None => Reject("appointment_date")
          case Some(date) =>
            match AsString(data, "appointment_start_time")
            case None => Reject("appointment_start_time")
            case Some(start) =>
              Issue(Call("sp_ScheduleAppointment", [PStr(email), PInt(Trunc(doctorId)), PStr(date), PStr(start)]),
                    exec, Created)
  }

  /** `CreateAppointment` is the reference behaviour of its endpoint
      description: the 400 names the first of `email`, `doctor_id`,
      `appointment_date`, `appointment_start_time` that fails, and the call
      passes them in that order. */
  lemma CreateAppointmentConforms(connected: bool, body: Decode<Fields>, exec: DbResult)
    ensures WellFormed(ScheduleEndpoint)
    ensures CreateAppointment(connected, body, exec) == Reference(ScheduleEndpoint, connected, body, exec, Created)
  {
    assert WellFormed(ScheduleEndpoint);
    if connected && body.Decoded? {
      var data := body.value;
      if AsString(data, "email").None? || AsNumber(data, "doctor_id").None?
         || AsString(data, "appointment_date").None? || AsString(data, "appointment_start_time").None? {
        ScheduleVerdict(data);
      } else {
        ScheduleConformsAccepted(data, exec);
      }
    }
  }

  /** The verdict of the appointment checks, case by case in the handler's
      order. */
  lemma ScheduleVerdict(data: Fields)
    ensures Check(data, ScheduleEndpoint.checks)
         == if AsString(data, "email").None? then Rejected("email")
            else if AsNumber(data, "doctor_id").None? then Rejected("doctor_id")
            else if AsString(data, "appointment_date").None? then Rejected("appointment_date")
            else if AsString(data, "appointment_start_time").None? then Rejected("appointment_start_time")
            else Accepted
  {
    var checks := ScheduleEndpoint.checks;
    if AsString(data, "email").None? {
      CheckReportsFirstFailure(data, checks, 0);
    } else if AsNumber(data, "doctor_id").None? {
      CheckReportsFirstFailure(data, checks, 1);
    } else if AsString(data, "appointment_date").None? {
      CheckReportsFirstFailure(data, checks, 2);
    } else if AsString(data, "appointment_start_time").None? {
      CheckReportsFirstFailure(data, checks, 3);
    } else {
      CheckAccepts(data, checks);
    }
  }

  lemma ScheduleConformsAccepted(data: Fields, exec: DbResult)
    requires AsString(data, "email").Some? && AsNumber(data, "doctor_id").Some?
    requires AsString(data, "appointment_date").Some? && AsString(data, "appointment_start_time").Some?
    ensures WellFormed(ScheduleEndpoint)
    ensures CreateAppointment(true, Decoded(data), exec) == Reference(ScheduleEndpoint, true, Decoded(data), exec, Created)
  {
    assert WellFormed(ScheduleEndpoint);
    ScheduleVerdict(data);
    CheckAccepts(data, ScheduleEndpoint.checks);
    var ps := ParamsOf(data, ScheduleEndpoint.params);
    assert ps == [PStr(AsString(data, "email").value), PInt(Trunc(AsNumber(data, "doctor_id").value)),
                  PStr(AsString(data, "appointment_date").value), PStr(AsString(data, "appointment_start_time").value)];
  }

  /** A required field of the wrong JSON type (a numeric `email`, a string
      `doctor_id`, ...) is reported exactly as a missing one. */
  lemma AppointmentWrongTypeIsMissing(data: Fields, key: string, k: Kind, v: JsonVal, exec: DbResult)
    requires Required(key, k) in ScheduleEndpoint.checks
    requires !HasKind(v, k)
    ensures CreateAppointment(true, Decoded(data[key := v]), exec)
         == CreateAppointment(true, Decoded(data - {key}), exec)
    ensures CreateAppointment(true, Decoded(data - {key}), exec).call.None?
  {
    var checks := ScheduleEndpoint.checks;
    assert forall s :: s in checks && s.name == key ==> s == Required(key, k);
    WrongKindActsAsAbsent(data, checks, key, k, v);
    ScheduleVerdict(data[key := v]);
    ScheduleVerdict(data - {key});
  }

  /** `doctor_id` is truncated toward zero, not rounded: 3.7 is sent as 3. */
  lemma AppointmentTruncatesDoctorId(email: string, date: string, start: string, exec: DbResult)
    ensures var data := map["email" := JStr(email), "doctor_id" := JNum(3.7),
                            "appointment_date" := JStr(date), "appointment_start_time" := JStr(start)];
            CreateAppointment(true, Decoded(data), exec).call
              == Some(Call("sp_ScheduleAppointment", [PStr(email), PInt(3), PStr(date), PStr(start)]))
  {
  }

  /** GET /api/doctors/{id}/appointments: the path id goes to the procedure
      as the raw string, without parsing or validation. `query` stands for
      the query together with the scan of its rows: a failure of either is a
      `DbErr`. The rows themselves are not modelled. */
  function ListDoctorAppointments(connected: bool, id: string, query: DbResult): (h: Handled)
    ensures !connected ==> h == ConnectFailure
    ensures connected ==> h.call == Some(Call("sp_GetDoctorAppointments", [PStr(id)]))
    ensures connected && query.DbErr? ==> h.resp == ServerError(query.msg)
    ensures connected && query.DbOk? ==> h.resp.Ok?
  {
    if !connected then ConnectFailure
    else Issue(Call("sp_GetDoctorAppointments", [PStr(id)]), query, Ok(AppointmentRows))
  }

  /** Ids that are the same number written differently reach the procedure
      as different strings: nothing is parsed. */
  lemma DoctorIdNotParsed(id1: string, id2: string, query: DbResult)
    requires id1 != id2
    ensures ListDoctorAppointments(true, id1, query).call != ListDoctorAppointments(true, id2, query).call
  {
    assert ListDoctorAppointments(true, id1, query).call.value.params[0].s == id1;
  }
}
