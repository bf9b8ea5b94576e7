/** The registration modal of components/registration-modal.tsx: the numeric
    id check, the two halves of the asynchronous `handleVerify` around the
    status request, and what a closed or open modal renders. The parsed
    answer of the request is an input (`None` when the request or the JSON
    decoding failed); the success callback is recorded as a count. */
module RegistrationModal {
  import opened Wrappers
  import opened Js

  const CheckStatusUrl := "https://dombyta-shoes.ru/api/check-registration.php"
  const InvalidIdError := "Please enter a valid numeric User ID."
  const NotFoundError := "Registration not found. Please check the ID or complete the registration."
  const FailedError := "Verification failed. Please try again later."

  /** `oneWinId && /^\d+$/.test(oneWinId)`: non-empty and ASCII digits only. */
  predicate IsNumericId(s: string) {
    |s| > 0 && forall k :: 0 <= k < |s| ==> '0' <= s[k] <= '9'
  }

  /** The URL the status request goes to. */
  function StatusUrl(oneWinId: string): (url: string)
    ensures |url| == |CheckStatusUrl| + 10 + |oneWinId|
    ensures url[..|CheckStatusUrl|] == CheckStatusUrl
    ensures url[|CheckStatusUrl|..|CheckStatusUrl| + 10] == "?oneWinId="
    ensures url[|url| - |oneWinId|..] == oneWinId
  {
    CheckStatusUrl + "?oneWinId=" + oneWinId
  }

  /** How the request ended. */
  datatype VerifyOutcome = Registered | NotRegistered | Failed

  /** `data.status === 'registered'` inside the `try`: reading the status of
      a `null` answer throws and lands in the `catch`, as a failed request does. */
  function Classify(response: Option<JsValue>): (o: VerifyOutcome)
    ensures o == Registered <==> response.Some? && Get(response.value, "status") == Normal(Str("registered"))
    ensures o == Failed <==> response.None? || IsNullish(response.value)
  {
    match response
    case None => Failed
    case Some(data) =>
      match Get(data, "status")
      case Throw(_) => Failed
      case Normal(status) => if status == Str("registered") then Registered else NotRegistered
  }

  /** The error text an outcome leaves behind. */
  function ErrorFor(o: VerifyOutcome): string {
    match o
    case Registered => ""
    case NotRegistered => NotFoundError
    case Failed => FailedError
  }

  /** What an open modal shows. */
  datatype ModalView = ModalView(affiliateHref: string, idValue: string, error: string,
                                 inputDisabled: bool, verifyDisabled: bool, spinner: bool)

  class RegistrationModalState {
    var oneWinId: string
    var isChecking: bool
    var error: string
    /** How often `onRegistrationSuccess` was called. */
    var successCalls: nat

    constructor ()
      ensures oneWinId == "" && !isChecking && error == "" && successCalls == 0
    {
      oneWinId := "";
      isChecking := false;
      error := "";
      successCalls := 0;
    }

    method HandleInput(value: string)
      modifies this
      ensures oneWinId == value
      ensures isChecking == old(isChecking) && error == old(error) && successCalls == old(successCalls)
    {
      oneWinId := value;
    }

    /** The synchronous start of `handleVerify`: an invalid id only sets the
        numeric-id error; a valid one starts checking, clears the error and
        yields the URL to request. */
    method BeginVerify() returns (url: Option<string>)
      modifies this
      ensures !IsNumericId(old(oneWinId)) ==>
        url.None? && error == InvalidIdError && isChecking == old(isChecking)
      ensures IsNumericId(old(oneWinId)) ==>
        url == Some(StatusUrl(old(oneWinId))) && isChecking && error == ""
      ensures oneWinId == old(oneWinId) && successCalls == old(successCalls)
    {
      if |oneWinId| == 0 || exists k :: 0 <= k < |oneWinId| && !('0' <= oneWinId[k] <= '9') {
        error := InvalidIdError;
        return None;
      }
      isChecking := true;
      error := "";
      return Some(StatusUrl(oneWinId));
    }

    /** The rest of `handleVerify`, once the request has settled: success
        calls back, anything else sets its error; checking always ends. */
    method CompleteVerify(response: Option<JsValue>)
      modifies this
      ensures Classify(response) == Registered ==> successCalls == old(successCalls) + 1 && error == old(error)
      ensures Classify(response) != Registered ==>
        successCalls == old(successCalls) && error == ErrorFor(Classify(response))
      ensures !isChecking && oneWinId == old(oneWinId)
    {
      var outcome := Classify(response);
      if outcome == Registered {
        successCalls := successCalls + 1;
      } else if outcome == NotRegistered {
        error := NotFoundError;
      } else {
        error := FailedError;
      }
      isChecking := false;
    }

    /** A whole `handleVerify` whose request, if one is made, settles with
        `response`. */
    method HandleVerify(response: Option<JsValue>)
      modifies this
      ensures !IsNumericId(old(oneWinId)) ==>
        error == InvalidIdError && isChecking == old(isChecking) && successCalls == old(successCalls)
      ensures IsNumericId(old(oneWinId)) ==>
        !isChecking && error == ErrorFor(Classify(response))
        && successCalls == old(successCalls) + (if Classify(response) == Registered then 1 else 0)
      ensures oneWinId == old(oneWinId)
    {
      var url := BeginVerify();
      if url.Some? {
        CompleteVerify(response);
      }
    }

    /** The render: nothing while closed; otherwise the affiliate link tagged
        with the user id, and the input and the button locked while checking. */
    function Render(isOpen: bool, userId: string, affiliateLink: string): (v: Option<ModalView>)
      reads this
      ensures v.None? <==> !isOpen
      ensures v.Some? ==> v.value.inputDisabled == isChecking && v.value.verifyDisabled == isChecking
                          && v.value.spinner == isChecking
                          && v.value.affiliateHref == affiliateLink + "?sub1=" + userId
    {
      if !isOpen then None
      else Some(ModalView(affiliateLink + "?sub1=" + userId, oneWinId, error,
                          isChecking, isChecking, isChecking))
    }
  }

  /** The callback fires on a registered answer only: a failed request or a
      `null` answer never registers. */
  lemma FailureNeverRegisters(response: Option<JsValue>)
    requires response.None? || IsNullish(response.value)
    ensures Classify(response) == Failed && ErrorFor(Classify(response)) == FailedError
  {
  }

  /** An answer with any other status is a not-found, not a failure. */
  lemma OtherStatusIsNotFound(status: JsValue)
    requires status != Str("registered")
    ensures Classify(Some(Obj(map["status" := status]))) == NotRegistered
  {
  }

  /** The ids the check accepts are exactly the decimal numerals (with
      leading zeros allowed). */
  lemma NumericIdExamples()
    ensures IsNumericId("332214990") && IsNumericId("007")
    ensures !IsNumericId("") && !IsNumericId("12a") && !IsNumericId(" 12") && !IsNumericId("-1")
  {
    assert "12a"[2] == 'a';
    assert " 12"[0] == ' ';
    assert "-1"[0] == '-';
  }
}
