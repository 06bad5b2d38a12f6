/**
 * The groupware account page of the tutorial wizard (src/app/js/renderer/modules/garoon.ts): a
 * Redux state of the three account fields with their error texts, the event page URL with its
 * validity, and where the account verification stands. Only the `reducer` is modelled; the
 * thunks that talk to the main process over IPC are not part of this model.
 */
module GaroonForm {
  import opened Wrappers

  /** `VerifyState`. */
  datatype VerifyState = Initial | Verifying | Verified

  /** `VerifyResult`. */
  datatype VerifyResult = Unknown | Valid | Invalid | Error

  datatype Verification = Verification(state: VerifyState, result: VerifyResult)

  /** An input field: its text and the error shown under it, `None` for `undefined`. */
  datatype Field = Field(value: string, errorText: Option<string>)

  datatype EventPageUrl = EventPageUrl(value: string, valid: bool)

  /** `GaroonState`. */
  datatype State = State(verifying: Verification, serverUrl: Field, username: Field, password: Field, eventPageUrl: EventPageUrl)

  /** The seven action creators; `Other` is any action of another module. */
  datatype Action =
    | StartVerifyAccount
    | EndVerifyAccount(state: VerifyState, result: VerifyResult)
    | ValidateAccount
    | SetServerUrl(value: string)
    | SetUsername(value: string)
    | SetPassword(value: string)
    | SetEventPageUrl(value: string)
    | Other

  /** What `url.parse` does with a string: return, throw a `URIError`, or throw anything else. */
  datatype ParseOutcome = Parsed | ThrowsUriError | ThrowsOther

  /** The error `isValieEventPageUrl` throws for a string `url.parse` rejects without a `URIError`. */
  datatype Thrown = InvalidArgument(message: string)

  /** The error text of an empty field ("not entered"). */
  const MissingText: string := "入力されていません"

  /** `initialState`: nothing verified, every field empty without an error, the URL not valid. */
  function InitialState(): (s: State)
    ensures s.verifying == Verification(Initial, Unknown)
    ensures s.serverUrl == s.username == s.password == Field("", None)
    ensures s.eventPageUrl.value == "" && !s.eventPageUrl.valid
  {
    State(Verification(Initial, Unknown), Field("", None), Field("", None), Field("", None), EventPageUrl("", false))
  }

  /** `isValieEventPageUrl(url)`, given what `url.parse` does with `url`. */
  function IsValidEventPageUrl(url: string, outcome: ParseOutcome): (r: Result<bool, Thrown>)
    ensures r == Success(true) <==> outcome == Parsed
    ensures r == Success(false) <==> outcome == ThrowsUriError
    ensures r.Failure? <==> outcome == ThrowsOther
    ensures r.Failure? ==> r.error.message == "Invalid argument \"" + url + "\""
  {
    match outcome
    case Parsed => Success(true)
    case ThrowsUriError => Success(false)
    case ThrowsOther => Failure(InvalidArgument("Invalid argument \"" + url + "\""))
  }

  /** The field as `ValidateAccount` leaves it. */
  function Checked(f: Field): (g: Field)
    ensures g.value == f.value
    ensures g.errorText.Some? <==> |f.value| == 0
    ensures g.errorText.Some? ==> g.errorText.value == MissingText
  {
    f.(errorText := if |f.value| == 0 then Some(MissingText) else None)
  }

  /**
   * `reducer`: each action's effect on the state. `parse` says what `url.parse` does with a
   * string; the reducer throws only when it rethrows from `isValieEventPageUrl`.
   */
  function Reduce(s: State, a: Action, parse: string -> ParseOutcome): (r: Result<State, Thrown>)
    ensures r.Failure? <==> a.SetEventPageUrl? && parse(a.value) == ThrowsOther
    ensures a.StartVerifyAccount? ==> r == Success(s.(verifying := Verification(Verifying, s.verifying.result)))
    ensures a.EndVerifyAccount? ==> r == Success(s.(verifying := Verification(a.state, a.result)))
    ensures a.ValidateAccount? ==>
      r == Success(s.(serverUrl := Checked(s.serverUrl), username := Checked(s.username), password := Checked(s.password)))
    ensures a.SetServerUrl? ==> r == Success(s.(serverUrl := Field(a.value, s.serverUrl.errorText)))
    ensures a.SetUsername? ==> r == Success(s.(username := Field(a.value, s.username.errorText)))
    ensures a.SetPassword? ==> r == Success(s.(password := Field(a.value, s.password.errorText)))
    ensures a.SetEventPageUrl? && r.Success? ==>
      r.value == s.(eventPageUrl := EventPageUrl(a.value, parse(a.value) == Parsed))
    ensures a.Other? ==> r == Success(s)
  {
    match a
    case StartVerifyAccount => Success(s.(verifying := s.verifying.(state := Verifying)))
    case EndVerifyAccount(state, result) => Success(s.(verifying := s.verifying.(state := state, result := result)))
    case ValidateAccount =>
      Success(s.(serverUrl := Checked(s.serverUrl), username := Checked(s.username), password := Checked(s.password)))
    case SetServerUrl(value) => Success(s.(serverUrl := s.serverUrl.(value := value)))
    case SetUsername(value) => Success(s.(username := s.username.(value := value)))
    case SetPassword(value) => Success(s.(password := s.password.(value := value)))
    case SetEventPageUrl(value) =>
      var valid := IsValidEventPageUrl(value, parse(value));
      if valid.Failure? then Failure(valid.error)
      else Success(s.(eventPageUrl := s.eventPageUrl.(value := value, valid := valid.value)))
    case Other => Success(s)
  }

  /** The check `submit` makes after validating: no field shows an error. */
  predicate NoErrors(s: State) {
    s.serverUrl.errorText.None? && s.username.errorText.None? && s.password.errorText.None?
  }

  /** After validation the account may be submitted exactly when all three fields are filled in. */
  lemma ValidatedSubmittable(s: State, parse: string -> ParseOutcome)
    ensures NoErrors(Reduce(s, ValidateAccount, parse).value) <==>
      |s.serverUrl.value| > 0 && |s.username.value| > 0 && |s.password.value| > 0
  {
  }

  /** Validating twice is validating once. */
  lemma ValidateIdempotent(s: State, parse: string -> ParseOutcome)
    ensures Reduce(Reduce(s, ValidateAccount, parse).value, ValidateAccount, parse) == Reduce(s, ValidateAccount, parse)
  {
  }

  /** Editing a field never changes what validating afterwards reports for the other fields. */
  lemma EditThenValidate(s: State, value: string, parse: string -> ParseOutcome)
    ensures var t := Reduce(Reduce(s, SetUsername(value), parse).value, ValidateAccount, parse).value;
      (t.username.errorText.None? <==> |value| > 0)
      && t.serverUrl == Reduce(s, ValidateAccount, parse).value.serverUrl
      && t.password == Reduce(s, ValidateAccount, parse).value.password
  {
  }

  /** The field setters act on separate fields, so their order does not matter. */
  lemma SettersCommute(s: State, x: string, y: string, z: string, parse: string -> ParseOutcome)
    ensures Reduce(Reduce(s, SetServerUrl(x), parse).value, SetUsername(y), parse)
         == Reduce(Reduce(s, SetUsername(y), parse).value, SetServerUrl(x), parse)
    ensures Reduce(Reduce(s, SetUsername(y), parse).value, SetPassword(z), parse)
         == Reduce(Reduce(s, SetPassword(z), parse).value, SetUsername(y), parse)
  {
  }

  /** A verification that starts and ends leaves exactly its reported outcome. */
  lemma VerifyCycle(s: State, state: VerifyState, result: VerifyResult, parse: string -> ParseOutcome)
    ensures Reduce(Reduce(s, StartVerifyAccount, parse).value, EndVerifyAccount(state, result), parse)
         == Success(s.(verifying := Verification(state, result)))
  {
  }
}
