/** The admin's user dialog (client/src/components/UserForm.tsx): the form state as a
    plain object updated field by field, and the payload `createUser` is called with. */
module UserForm {
  import opened Js
  import opened AuthContext
  import AdminApi

  /** A plain object: the form state and the payload are maps from field name to value. */
  type FormData = map<string, JsValue>

  /** `obj[key]`, `undefined` for a missing key. */
  function Field(m: FormData, key: string): (v: JsValue)
    ensures key !in m ==> v == Undefined
    ensures key in m ==> v == m[key]
  {
    if key in m then m[key] else Undefined
  }

  /** The field values before `...initialData` is spread over them. */
  function Defaults(): (d: FormData)
    ensures d.Keys == {"name", "email", "role", "gender", "nationalId", "available", "password"}
    ensures d["role"] == Str("PATIENT") && d["gender"] == Str("MALE") && d["available"] == Bool(false)
    ensures d["name"] == d["email"] == d["nationalId"] == d["password"] == Str("")
  {
    map["name" := Str(""), "email" := Str(""), "role" := Str("PATIENT"), "gender" := Str("MALE"),
        "nationalId" := Str(""), "available" := Bool(false), "password" := Str("")]
  }

  /** The initial form: every default, overridden by each field `initialData` has. */
  function InitialForm(initialData: Option<FormData>): (f: FormData)
    ensures f.Keys == Defaults().Keys + (if initialData.Some? then initialData.value.Keys else {})
    ensures forall k :: k in f ==>
              f[k] == (if initialData.Some? && k in initialData.value then initialData.value[k] else Defaults()[k])
  {
    Defaults() + initialData.GetOr(map[])
  }

  /** The object sent to `createUser`: the form, with an empty-string password when the
      form's is falsy, and `available` derived from the role alone. */
  function Payload(formData: FormData): (p: FormData)
    ensures p.Keys == formData.Keys + {"password", "available"}
    ensures p["available"] == Bool(Field(formData, "role") == Str("DOCTOR"))
    ensures !Truthy(Field(formData, "password")) ==> p["password"] == Str("")
    ensures Truthy(Field(formData, "password")) ==> p["password"] == formData["password"]
    ensures forall k :: k in formData && k != "password" && k != "available" ==> p[k] == formData[k]
  {
    formData + map["password" := Or(Field(formData, "password"), Str("")),
                   "available" := Bool(Field(formData, "role") == Str("DOCTOR"))]
  }

  /** What the form's own `available` field holds never reaches the payload. */
  lemma PayloadIgnoresAvailable(formData: FormData, v: JsValue)
    ensures Payload(formData["available" := v]) == Payload(formData)
  {
    var a := Payload(formData["available" := v]);
    var b := Payload(formData);
    assert Field(formData["available" := v], "role") == Field(formData, "role");
    assert Field(formData["available" := v], "password") == Field(formData, "password");
    assert a.Keys == b.Keys;
    forall k | k in a ensures a[k] == b[k] {
    }
  }

  /** The calls the dialog makes on its parent. */
  datatype ParentCall = OnSuccess | OnClose

  class Dialog {
    var formData: FormData
    var error: Option<string>
    var loading: bool
    /** The payloads passed to `createUser` so far. */
    var sent: seq<FormData>
    /** The parent callbacks called so far. */
    var calls: seq<ParentCall>

    constructor (initialData: Option<FormData>)
      ensures formData == InitialForm(initialData)
      ensures error == None && !loading && sent == [] && calls == []
    {
      formData := Defaults() + initialData.GetOr(map[]);
      error := None;
      loading := false;
      sent := [];
      calls := [];
    }

    /** `handleChange`: an event without a (non-empty) name changes nothing; otherwise
        only the named field is replaced. */
    method HandleChange(name: Option<string>, value: JsValue)
      modifies this
      ensures name.None? || name.value == "" ==> formData == old(formData)
      ensures name.Some? && name.value != "" ==> formData == old(formData)[name.value := value]
      ensures error == old(error) && loading == old(loading) && sent == old(sent) && calls == old(calls)
    {
      if name.None? || name.value == "" {
        return;
      }
      formData := formData[name.value := value];
    }

    /** `handleSelectChange`: the named field is replaced, with no guard on the name. */
    method HandleSelectChange(name: string, value: JsValue)
      modifies this
      ensures formData == old(formData)[name := value]
      ensures error == old(error) && loading == old(loading) && sent == old(sent) && calls == old(calls)
    {
      formData := formData[name := value];
    }

    /** `handleSubmit`, with the outcome of the `POST /api/admin/users` that `createUser`
        makes: success calls `onSuccess` then `onClose`; failure shows the message
        `createUser` throws. `loading` is false afterwards. */
    method HandleSubmit(outcome: AdminApi.Outcome<()>)
      modifies this
      ensures !loading && formData == old(formData)
      ensures sent == old(sent) + [Payload(old(formData))]
      ensures outcome.Succeeded? ==> error == None && calls == old(calls) + [OnSuccess, OnClose]
      ensures outcome.Failed? ==>
                error == Some(AdminApi.ApiErrorMessage(outcome.error, "Failed to create user")) && calls == old(calls)
    {
      loading := true;
      error := None;
      sent := sent + [Payload(formData)];
      match outcome {
      case Succeeded(_) =>
        calls := calls + [OnSuccess];
        calls := calls + [OnClose];
      case Failed(e) =>
        error := Some(AdminApi.ApiErrorMessage(e, "Failed to create user"));
      }
      loading := false;
    }
  }
}
