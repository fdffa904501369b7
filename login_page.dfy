/** The login page (client/src/app/login/page.tsx): the form schema, and the storage
    writes and error text of a submission. `login` is the one of the authentication
    context; its outcome is a parameter. */
module LoginPage {
  import opened Js
  import opened AuthContext
  import opened SubmitErrors
  import RouteGuard

  datatype LoginForm = LoginForm(email: string, password: string)

  /** The schema: a required, well-formed email and a password of at least six
      characters. */
  predicate LoginValid(f: LoginForm, isEmail: string -> bool)
    ensures LoginValid(f, isEmail) ==> |f.password| >= 6 && |f.email| >= 1 && isEmail(f.email)
  {
    f.email != "" && isEmail(f.email) && f.password != "" && |f.password| >= 6
  }

  /** An accepted form never has the empty default values. */
  lemma DefaultsRejected(isEmail: string -> bool)
    ensures !LoginValid(LoginForm("", ""), isEmail)
  {
  }

  /** Whether a write to `localStorage` changed key `k`: added, removed or rewritten. */
  predicate Changed(before: map<string, string>, after: map<string, string>, k: string) {
    (k in before) != (k in after) || (k in before && k in after && before[k] != after[k])
  }

  /** The storage after a successful login: no `token`, a `login` stamp, every other key
      as it was, and no changed key is the one other tabs' route guards listen for. */
  function StorageAfterLogin(storage: map<string, string>, now: nat): (s: map<string, string>)
    ensures "token" !in s && "login" in s && s["login"] == NatToString(now)
    ensures forall k :: k != "token" && k != "login" ==> (k in s <==> k in storage) && (k in s ==> s[k] == storage[k])
    ensures forall k :: Changed(storage, s, k) ==> !RouteGuard.StorageEventChecksAuth(Some(k))
  {
    (storage - {"token"})["login" := NatToString(now)]
  }

  class Page {
    var error: Option<string>
    var isSubmitting: bool
    /** `localStorage`. */
    var storage: map<string, string>

    constructor (storage0: map<string, string>)
      ensures error == None && !isSubmitting && storage == storage0
    {
      error := None;
      isSubmitting := false;
      storage := storage0;
    }

    /** `onSubmit`, with what `login` threw, if anything, and `Date.now()`. Only after a
        successful login is `token` removed and `login` set to the time; a failure
        leaves storage alone and shows the message. */
    method OnSubmit(thrown: Option<Thrown>, now: nat)
      modifies this
      ensures !isSubmitting
      ensures thrown.None? ==> error == None && storage == StorageAfterLogin(old(storage), now)
      ensures forall k :: Changed(old(storage), storage, k) ==> !RouteGuard.StorageEventChecksAuth(Some(k))
      ensures thrown.Some? ==>
                storage == old(storage) &&
                error == Some(SubmitErrorMessage(thrown.value, DefaultLoginError))
    {
      error := None;
      isSubmitting := true;
      if thrown.None? {
        storage := storage - {"token"};
        storage := storage["login" := NatToString(now)];
      } else {
        error := Some(SubmitErrorMessage(thrown.value, DefaultLoginError));
      }
      isSubmitting := false;
    }
  }

  /** `login` of the authentication context rejects with a plain `Error` carrying its
      derived message, so the page shows exactly that message: the page's own axios
      branch is never taken. */
  lemma ShownMessageIsContextMessage(e: RequestError)
    ensures SubmitErrorMessage(ErrorThrown(LoginErrorMessage(e)), DefaultLoginError) == LoginErrorMessage(e)
  {
  }
}
