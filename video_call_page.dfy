/** The video-call page (client/src/app/video-call/page.tsx): the room token is checked
    with the server before the call is shown, and every doubt sends the user back to the
    dashboard. The `fetch` of `/api/verify-room-token` is replaced by its outcome. */
module VideoCallPage {
  import opened Js
  import opened AuthContext

  /** What `POST /api/verify-room-token` gave: a rejection or a non-ok status (both end in
      the catch), or an ok body with `valid` and `userId`. */
  datatype RoomTokenOutcome = RequestFailed | NotOk | Answered(valid: bool, userId: Option<string>)

  const MissingToken: string := "/dashboard?error=missing_token"
  const CallFailed: string := "/dashboard?error=video_call_failed"

  /** The admission test: the answer is ok and valid, and it names the signed-in user. */
  predicate Admits(outcome: RoomTokenOutcome, user: Option<User>)
    ensures Admits(outcome, user) ==> user.Some? && outcome == Answered(true, Some(user.value.id))
  {
    outcome.Answered? && outcome.valid && IsAuthenticated(user) && Some(user.value.id) == outcome.userId
  }

  /** Fail-closed: every way the admission test can go wrong is a refusal. */
  lemma AdmitsFailsClosed(outcome: RoomTokenOutcome, user: Option<User>)
    ensures outcome.RequestFailed? || outcome.NotOk? ==> !Admits(outcome, user)
    ensures outcome.Answered? && !outcome.valid ==> !Admits(outcome, user)
    ensures user.None? ==> !Admits(outcome, user)
    ensures outcome.Answered? && outcome.userId.None? ==> !Admits(outcome, user)
    ensures user.Some? && outcome.Answered? && outcome.userId.Some? && outcome.userId.value != user.value.id ==>
              !Admits(outcome, user)
    ensures Admits(outcome, user) <==>
              user.Some? && outcome == Answered(true, Some(user.value.id))
  {
  }

  /** The page renders `VideoCall` rather than the waiting text. */
  predicate RendersCall(loading: bool, isValid: bool) {
    !loading && isValid
  }

  class Page {
    var isValid: bool
    /** The routes pushed so far. */
    var navigations: seq<string>
    /** The room tokens sent for verification so far. */
    var requests: seq<string>

    constructor ()
      ensures !isValid && navigations == [] && requests == []
    {
      isValid := false;
      navigations := [];
      requests := [];
    }

    /** One run of the effect, with the room token from the query string (absent or
        empty alike) and, when a request is made, its outcome. */
    method RunEffect(loading: bool, roomToken: Option<string>, user: Option<User>, outcome: RoomTokenOutcome)
      modifies this
      ensures loading ==> isValid == old(isValid) && navigations == old(navigations) && requests == old(requests)
      ensures !loading && (roomToken.None? || roomToken.value == "") ==>
                isValid == old(isValid) && navigations == old(navigations) + [MissingToken] &&
                requests == old(requests)
      ensures !loading && roomToken.Some? && roomToken.value != "" ==>
                requests == old(requests) + [roomToken.value] &&
                (Admits(outcome, user) ==> isValid && navigations == old(navigations)) &&
                (!Admits(outcome, user) ==> isValid == old(isValid) && navigations == old(navigations) + [CallFailed])
    {
      if loading {
        return;
      }
      if roomToken.None? || roomToken.value == "" {
        navigations := navigations + [MissingToken];
        return;
      }
      requests := requests + [roomToken.value];
      if Admits(outcome, user) {
        isValid := true;
      } else {
        navigations := navigations + [CallFailed];
      }
    }
  }

  /** From a fresh page, the call is shown after an effect run only if that run admitted
      a signed-in user whose id the server named; a refusal leaves the waiting text. */
  method FreshPageRendersOnlyAdmitted(loading: bool, roomToken: Option<string>, user: Option<User>,
                                      outcome: RoomTokenOutcome) returns (shown: bool)
    ensures shown <==> !loading && roomToken.Some? && roomToken.value != "" && Admits(outcome, user)
    ensures shown ==> IsAuthenticated(user) && outcome == Answered(true, Some(user.value.id))
  {
    var page := new Page();
    page.RunEffect(loading, roomToken, user, outcome);
    AdmitsFailsClosed(outcome, user);
    shown := RendersCall(loading, page.isValid);
  }
}
