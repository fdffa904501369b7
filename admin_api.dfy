/** The admin API client (client/src/api/admin.ts): the shared error handler, the
    normalisation of appointments for the admin dashboard and the paging defaults of the
    user list. The requests themselves are replaced by their outcomes; date parsing, ISO
    formatting and the clock are parameters. */
module AdminApi {
  import opened Js
  import opened AuthContext

  /** What an API call ends in: a value, or the message of the `Error` it throws. */
  datatype ApiResult<T> = Returned(value: T) | Threw(message: string)

  /** What a request gave: the response data, or the rejection. */
  datatype Outcome<T> = Succeeded(data: T) | Failed(error: RequestError)

  /** `error.response?.data?.error`, written "" when absent. */
  function DataError(response: Option<HttpResponse>): string {
    if response.Some? && response.value.data.ObjectData? then response.value.data.error else ""
  }

  /** `${error.response?.status}`: the status, or "undefined" with no response. */
  function StatusText(response: Option<HttpResponse>): string {
    if response.None? then "undefined" else IntToString(response.value.status)
  }

  function StatusSuffix(response: Option<HttpResponse>): string {
    " (Status: " + StatusText(response) + ")"
  }

  /** `handleApiError`: it never returns, so it is modelled as the message it throws. */
  function ApiErrorMessage(error: RequestError, defaultMessage: string): (msg: string)
    ensures error.OtherError? ==> msg == defaultMessage
    ensures error.AxiosError? && DataError(error.response) != "" ==>
              msg == DataError(error.response) + StatusSuffix(error.response)
    ensures error.AxiosError? && DataError(error.response) == "" && error.message != "" ==>
              msg == error.message + StatusSuffix(error.response)
    ensures error.AxiosError? && DataError(error.response) == "" && error.message == "" ==>
              msg == defaultMessage + StatusSuffix(error.response)
  {
    match error
    case OtherError => defaultMessage
    case AxiosError(message, response) =>
      var cs := [DataError(response), message, defaultMessage];
      var text := FirstNonEmpty(cs);
      assert cs[0] == DataError(response) && cs[1] == message && cs[2] == defaultMessage;
      assert text == cs[0] || (cs[0] == "" && text == cs[1]) || (cs[0] == "" && cs[1] == "" && text == cs[2]) by {
        if text != "" {
          var k :| 0 <= k < |cs| && cs[k] == text && forall j :: 0 <= j < k ==> cs[j] == "";
        }
      }
      text + StatusSuffix(response)
  }

  /** Every call that fails with a response names its numeric status in the message;
      one without a response says "undefined". */
  lemma ApiErrorNamesStatus(message: string, response: Option<HttpResponse>, defaultMessage: string)
    ensures var msg := ApiErrorMessage(AxiosError(message, response), defaultMessage);
            |msg| >= |StatusSuffix(response)| && msg[|msg| - |StatusSuffix(response)|..] == StatusSuffix(response)
    ensures response.None? ==> StatusSuffix(response) == " (Status: undefined)"
  {
    var msg := ApiErrorMessage(AxiosError(message, response), defaultMessage);
    var pre := FirstNonEmpty([DataError(response), message, defaultMessage]);
    assert msg == pre + StatusSuffix(response);
  }

  // ---------------------------------------------------------------------------
  // getAllUsers

  datatype UsersParams = UsersParams(page: int, limit: int)

  /** The query of `getAllUsers(page = 1, pageSize = 10)`; an omitted argument is `None`.
      The page size travels as `limit`. */
  function UsersQuery(page: Option<int>, pageSize: Option<int>): (q: UsersParams)
    ensures page.Some? ==> q.page == page.value
    ensures page.None? ==> q.page == 1
    ensures pageSize.Some? ==> q.limit == pageSize.value
    ensures pageSize.None? ==> q.limit == 10
  {
    UsersParams(page.GetOr(1), pageSize.GetOr(10))
  }

  // ---------------------------------------------------------------------------
  // getAllAppointments

  datatype Participant = Participant(id: string, name: string)

  /** An appointment as the server sends it. */
  datatype Appointment = Appointment(id: string, date: string, status: string,
                                     patient: Option<Participant>, doctor: Option<Participant>,
                                     notes: Option<string>, createdAt: string, updatedAt: string)

  /** An appointment as the admin dashboard receives it: both participants present and
      their ids repeated at the top level. */
  datatype SafeAppointment = SafeAppointment(id: string, date: string, status: string,
                                             patient: Participant, doctor: Participant,
                                             notes: Option<string>, createdAt: string, updatedAt: string,
                                             patientId: string, doctorId: string)

  const UnknownPatient: Participant := Participant("", "Unknown Patient")
  const UnknownDoctor: Participant := Participant("", "Unknown Doctor")

  /** The top-level ids agree with the participant objects. */
  predicate Consistent(a: SafeAppointment) {
    a.patientId == a.patient.id && a.doctorId == a.doctor.id
  }

  /** The date an appointment is shown with: the ISO form of the parsed date, or of the
      current time when the text does not parse. */
  function SafeDate(date: string, parse: string -> Option<int>, iso: int -> string, now: int): (d: string)
    ensures parse(date).Some? ==> d == iso(parse(date).value)
    ensures parse(date).None? ==> d == iso(now)
  {
    match parse(date)
    case Some(t) => iso(t)
    case None => iso(now)
  }

  /** One step of the `map`: the spread copies every field, then the date and the
      participants are replaced. */
  function Normalize(a: Appointment, parse: string -> Option<int>, iso: int -> string, now: int): (r: SafeAppointment)
    ensures r.id == a.id && r.status == a.status && r.notes == a.notes &&
            r.createdAt == a.createdAt && r.updatedAt == a.updatedAt
    ensures r.date == SafeDate(a.date, parse, iso, now)
    ensures r.patient == (if a.patient.Some? then a.patient.value else UnknownPatient)
    ensures r.doctor == (if a.doctor.Some? then a.doctor.value else UnknownDoctor)
    ensures Consistent(r)
  {
    SafeAppointment(a.id, SafeDate(a.date, parse, iso, now), a.status,
                    a.patient.GetOr(UnknownPatient), a.doctor.GetOr(UnknownDoctor),
                    a.notes, a.createdAt, a.updatedAt,
                    if a.patient.Some? then a.patient.value.id else "",
                    if a.doctor.Some? then a.doctor.value.id else "")
  }

  /** The whole list, one appointment for one, in order. */
  function NormalizeAll(appts: seq<Appointment>, parse: string -> Option<int>, iso: int -> string, now: int)
    : (r: seq<SafeAppointment>)
    ensures |r| == |appts|
    ensures forall i :: 0 <= i < |appts| ==> r[i] == Normalize(appts[i], parse, iso, now)
    decreases |appts|
  {
    if appts == [] then []
    else [Normalize(appts[0], parse, iso, now)] + NormalizeAll(appts[1..], parse, iso, now)
  }

  /** Forgets the top-level ids again: a normalised appointment as the server could send it. */
  function Unnormalize(a: SafeAppointment): Appointment {
    Appointment(a.id, a.date, a.status, Some(a.patient), Some(a.doctor), a.notes, a.createdAt, a.updatedAt)
  }

  /** Normalising is idempotent once the ISO text it produces parses back to the same
      time: a second pass changes nothing. */
  lemma NormalizeIdempotent(a: Appointment, parse: string -> Option<int>, iso: int -> string, now: int, later: int)
    requires forall t :: parse(iso(t)) == Some(t)
    ensures var once := Normalize(a, parse, iso, now);
            Normalize(Unnormalize(once), parse, iso, later) == once
  {
    var once := Normalize(a, parse, iso, now);
    var t := if parse(a.date).Some? then parse(a.date).value else now;
    assert once.date == iso(t);
    assert parse(once.date) == Some(t);
  }

  /** `getAllAppointments`: the normalised list, or the handler's message with the
      default "Failed to fetch appointments". */
  function GetAllAppointments(outcome: Outcome<seq<Appointment>>, parse: string -> Option<int>, iso: int -> string, now: int)
    : (r: ApiResult<seq<SafeAppointment>>)
    ensures outcome.Succeeded? ==>
              r.Returned? && |r.value| == |outcome.data| &&
              forall i :: 0 <= i < |r.value| ==> Consistent(r.value[i]) && r.value[i].id == outcome.data[i].id
    ensures outcome.Succeeded? ==> r == Returned(NormalizeAll(outcome.data, parse, iso, now))
    ensures outcome.Failed? ==> r == Threw(ApiErrorMessage(outcome.error, "Failed to fetch appointments"))
  {
    match outcome
    case Succeeded(appts) => Returned(NormalizeAll(appts, parse, iso, now))
    case Failed(error) => Threw(ApiErrorMessage(error, "Failed to fetch appointments"))
  }
}
