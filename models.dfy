/**
  The record shapes the handlers decode into and echo back. They carry no
  behaviour.
 */
module Models {
  /** A Go `*int` field: `Null` is the nil pointer. */
  datatype NullableInt = Null | NotNull(value: int)

  /** `models.Patient`. */
  datatype Patient = Patient(
    patientId: int,
    roomId: NullableInt,
    name: string,
    email: string,
    gender: string,
    status: string,
    birthday: string)

  /** A checkup as `UpdateCheckup` decodes it. Only `result` is read by the
      handler; the other fields are the nullable foreign keys and the date
      and type that a checkup carries. */
  datatype Checkup = Checkup(
    recordId: NullableInt,
    patientId: NullableInt,
    doctorId: NullableInt,
    checkupDate: string,
    checkupType: string,
    result: string)

  /** The zero values Go gives a decoded record whose fields are all absent. */
  const EmptyCheckup := Checkup(Null, Null, Null, "", "", "")
}
