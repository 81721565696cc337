/** The add-source form of forms/add-source-form.tsx: its own copy of `sourceSchema`,
    no default values, and the `error`/`success` flags of its submit handler. */
module AddSourceForm {
  import opened Js
  import opened Validation
  import SourceForm

  const FailureFallback := "Failed to add source"

  /** The schema as this file writes it. */
  function AddSourceIssues(data: SourceForm.SourceFormData): seq<Issue> {
    (if |data.name| < 1 then [Issue("name", "Source name is required")] else [])
    + match data.balance
      case NotANumber => [Issue("balance", NaNMessage)]
      case Number(v) => if v >= 0.0 then [] else [Issue("balance", "Balance must be a positive number")]
  }

  /** The copy reports exactly what the source form's schema reports, for every input. */
  lemma SameAsSourceForm(data: SourceForm.SourceFormData)
    ensures AddSourceIssues(data) == SourceForm.SourceIssues(data)
    ensures AddSourceIssues(data) == [] <==> data.name != "" && data.balance.Number? && data.balance.value >= 0.0
  {
    SourceForm.SourceAccepted(data);
  }

  /** With no default values, an untouched form submits an empty name and, read with
      `valueAsNumber`, a NaN balance: both fields are refused. */
  lemma UntouchedFormRejected()
    ensures AddSourceIssues(SourceForm.SourceFormData("", NotANumber))
      == [Issue("name", "Source name is required"), Issue("balance", NaNMessage)]
  {
  }

  /** The component's `error` and `success` state cells. */
  class AddSourceFormState {
    var error: Option<string>
    var success: bool

    constructor ()
      ensures error == None && !success
    {
      error := None;
      success := false;
    }

    /** onSubmit, for data the schema accepted: clear both flags, call addSourceAction,
        then record how the call ended. */
    method OnSubmit(name: string, balance: real, outcome: Completion) returns (request: SourceForm.SourceRequest)
      modifies this
      ensures request == SourceForm.AddSource(name, balance)
      ensures outcome.Normal? ==> error == None && success
      ensures outcome.Threw? ==> error == Some(MessageOr(outcome.message, FailureFallback)) && !success
      ensures !(success && error.Some?)
    {
      error := None;
      success := false;
      request := SourceForm.AddSource(name, balance);
      if outcome.Normal? {
        success := true;
      } else {
        error := Some(MessageOr(outcome.message, FailureFallback));
      }
    }

    /** `handleSubmit(onSubmit)`: the handler runs only when the schema accepts the form. */
    method Submit(data: SourceForm.SourceFormData, outcome: Completion) returns (request: Option<SourceForm.SourceRequest>)
      modifies this
      ensures request.Some? <==> AddSourceIssues(data) == []
      ensures request.None? ==> error == old(error) && success == old(success)
      ensures request.Some? ==> request.value == SourceForm.AddSource(data.name, data.balance.value)
      ensures request.Some? && outcome.Normal? ==> error == None && success
      ensures request.Some? && outcome.Threw? ==> error == Some(MessageOr(outcome.message, FailureFallback)) && !success
    {
      SameAsSourceForm(data);
      if AddSourceIssues(data) == [] {
        var r := OnSubmit(data.name, data.balance.value, outcome);
        request := Some(r);
      } else {
        request := None;
      }
    }
  }
}
