/**
 * The server action `getAnalysis`: it validates the submitted data URI,
 * calls the grading flow once, and maps the outcome to a `FormState`.
 * The grading flow is an oracle: a function from the data URI to the
 * outcome of the call.
 */
module Actions {
  import opened Wrappers
  import opened Text

  /** What the form shows after a submission: a result, an error, or neither (initially). */
  datatype FormState<R> = FormState(result: Option<R>, error: Option<string>)

  /**
   * How one call of the grading flow ends. The flow returns `output!`, a
   * non-null assertion that is not checked at run time, so the caller may
   * receive null unless the flow library rejects it against the output
   * schema; `NoOutput` is kept as a conservative extra outcome for that case.
   */
  datatype FlowOutcome<R> =
    | Ok(result: R)
    | NoOutput
    | ErrWithMessage(message: string)  // an `Error` was thrown
    | ErrOther                         // some other value was thrown

  /** The new form state together with the inputs the flow was called with, in order. */
  datatype Analysis<R> = Analysis(state: FormState<R>, calls: seq<string>)

  const ImagePrefix := "data:image/"
  const InvalidImageError := "Please upload a valid image."
  const FailurePrefix := "Failed to analyze the image. "
  const FailureSuffix := ". Please try again."
  const UnknownErrorMessage := "An unknown error occurred."

  /** The guard `photoDataUri && photoDataUri.startsWith('data:image/')`. */
  predicate IsImageDataUri(photoDataUri: Option<string>) {
    Truthy(photoDataUri) && StartsWith(photoDataUri.value, ImagePrefix)
  }

  /** The state returned when the guard fails. */
  function Rejected<R>(): FormState<R> {
    FormState(None, Some(InvalidImageError))
  }

  /** The error text for a failed flow call whose message is `message`. */
  function FailureText(message: string): string {
    FailurePrefix + message + FailureSuffix
  }

  /** The message the catch clause reports for a thrown value. */
  function ThrownMessage<R>(outcome: FlowOutcome<R>): string
    requires outcome.ErrWithMessage? || outcome.ErrOther?
  {
    if outcome.ErrWithMessage? then outcome.message else UnknownErrorMessage
  }

  /**
   * Reads the message back out of an error text; the inverse of
   * FailureText, used to state that the text carries the message.
   */
  function ParseFailure(error: string): Option<string> {
    if |FailurePrefix| + |FailureSuffix| <= |error|
       && StartsWith(error, FailurePrefix)
       && error[|error| - |FailureSuffix|..] == FailureSuffix
    then Some(error[|FailurePrefix|..|error| - |FailureSuffix|])
    else None
  }

  /**
   * `getAnalysis(prevState, formData)`, where `photoDataUri` is the form's
   * `photoDataUri` field (None when absent) and `flow` answers the call.
   */
  function GetAnalysis<R>(prevState: FormState<R>, photoDataUri: Option<string>,
                          flow: string -> FlowOutcome<R>): (a: Analysis<R>)
    // a missing, empty or non-image field is rejected without calling the flow
    ensures !IsImageDataUri(photoDataUri) ==> a == Analysis(Rejected(), [])
    // otherwise the flow is called exactly once, with the field unchanged
    ensures IsImageDataUri(photoDataUri) ==> a.calls == [photoDataUri.value]
    ensures IsImageDataUri(photoDataUri) && flow(photoDataUri.value).Ok? ==>
      a.state == FormState(Some(flow(photoDataUri.value).result), None)
    ensures IsImageDataUri(photoDataUri) && flow(photoDataUri.value).ErrWithMessage? ==>
      a.state == FormState(None, Some(FailureText(flow(photoDataUri.value).message)))
    ensures IsImageDataUri(photoDataUri) && flow(photoDataUri.value).ErrOther? ==>
      a.state == FormState(None, Some(FailureText(UnknownErrorMessage)))
    ensures IsImageDataUri(photoDataUri) && flow(photoDataUri.value).NoOutput? ==>
      a.state == FormState(None, None)
    // unless the flow hands back null, exactly one of result and error is set
    ensures !(IsImageDataUri(photoDataUri) && flow(photoDataUri.value).NoOutput?) ==>
      (a.state.result.Some? <==> a.state.error.None?)
  {
    if !IsImageDataUri(photoDataUri) then
      Analysis(Rejected(), [])
    else
      var uri := photoDataUri.value;
      var outcome := flow(uri);
      var state :=
        match outcome
        case Ok(result) => FormState(Some(result), None)
        case NoOutput => FormState(None, None)
        case _ => FormState(None, Some(FailureText(ThrownMessage(outcome))));
      Analysis(state, [uri])
  }

  /** The emptiness test of the guard is implied by its prefix test. */
  lemma ImageDataUriIsPrefixed(photoDataUri: Option<string>)
    ensures IsImageDataUri(photoDataUri) <==>
            photoDataUri.Some? && StartsWith(photoDataUri.value, ImagePrefix)
  {
  }

  /** The error text carries the message: ParseFailure recovers it. */
  lemma ParseFailureText(message: string)
    ensures ParseFailure(FailureText(message)) == Some(message)
  {
  }

  /** Conversely, every text ParseFailure accepts is a failure text. */
  lemma ParseFailureSound(error: string, message: string)
    requires ParseFailure(error) == Some(message)
    ensures error == FailureText(message)
  {
  }

  /** Different messages give different error texts. */
  lemma FailureTextInjective(m1: string, m2: string)
    requires FailureText(m1) == FailureText(m2)
    ensures m1 == m2
  {
    ParseFailureText(m1);
    ParseFailureText(m2);
  }

  /** The validation error is not the text of any failed flow call. */
  lemma InvalidImageIsNoFailure(message: string)
    ensures FailureText(message) != InvalidImageError
  {
  }

  /**
   * The returned state tells the paths apart: the validation error appears
   * exactly when the flow was not called, and a failure text names the
   * message of the thrown value.
   */
  lemma ErrorIdentifiesPath<R>(prevState: FormState<R>, photoDataUri: Option<string>,
                                                  flow: string -> FlowOutcome<R>)
    ensures var a := GetAnalysis(prevState, photoDataUri, flow);
      (a.state.error == Some(InvalidImageError) <==> a.calls == [])
    ensures var a := GetAnalysis(prevState, photoDataUri, flow);
      a.calls != [] && a.state.error.Some? ==>
        var outcome := flow(a.calls[0]);
        (outcome.ErrWithMessage? || outcome.ErrOther?) &&
        ParseFailure(a.state.error.value) == Some(ThrownMessage(outcome))
  {
  }

  /** The previous state never influences the answer. */
  lemma PrevStateIgnored<R>(p1: FormState<R>, p2: FormState<R>, photoDataUri: Option<string>,
                            flow: string -> FlowOutcome<R>)
    ensures GetAnalysis(p1, photoDataUri, flow) == GetAnalysis(p2, photoDataUri, flow)
  {
  }
}
