/** The source form of forms/source-form.tsx: `sourceSchema`, the default values, and
    the `error`/`success` flags its submit handler sets around the add or update call. */
module SourceForm {
  import opened Js
  import opened Records
  import opened Validation

  const NameMessage := "Source name is required"
  const BalanceMessage := "Balance must be a positive number"
  const FailureFallback := "Failed to process the request"

  /** The values the form hands to the schema; the balance field is read with `valueAsNumber`. */
  datatype SourceFormData = SourceFormData(name: string, balance: NumberValue)

  /** `sourceSchema`: a name of at least one character, a balance of at least 0. */
  function SourceIssues(data: SourceFormData): seq<Issue> {
    (if |data.name| < 1 then [Issue("name", NameMessage)] else [])
    + match data.balance
      case NotANumber => [Issue("balance", NaNMessage)]
      case Number(v) => if v >= 0.0 then [] else [Issue("balance", BalanceMessage)]
  }

  /** Accepted exactly when the name is non-empty and the balance a number of at least 0,
      so a balance of 0 passes although the message speaks of a positive number. */
  lemma SourceAccepted(data: SourceFormData)
    ensures SourceIssues(data) == [] <==> data.name != "" && data.balance.Number? && data.balance.value >= 0.0
    ensures Issue("name", NameMessage) in SourceIssues(data) <==> data.name == ""
    ensures data.balance.Number? ==> (Issue("balance", BalanceMessage) in SourceIssues(data) <==> data.balance.value < 0.0)
  {
  }

  /** `defaultValues: editingSource || { name: '', balance: 0 }`. */
  function SourceDefaults(editing: Option<Source>): SourceFormData {
    if editing.Some? then SourceFormData(editing.value.name, Number(editing.value.balance))
    else SourceFormData("", Number(0.0))
  }

  /** A fresh form is refused for its empty name only. */
  lemma NewSourceFormFailsOnName()
    ensures SourceIssues(SourceDefaults(None)) == [Issue("name", NameMessage)]
  {
  }

  /** The call the submit handler makes. */
  datatype SourceRequest =
    | AddSource(name: string, balance: real)
    | UpdateSource(id: string, name: string, balance: real)

  /** The component's `error` and `success` state cells. */
  class SourceFormState {
    var error: Option<string>
    var success: bool

    constructor ()
      ensures error == None && !success
    {
      error := None;
      success := false;
    }

    /** onSubmit, for data the schema accepted: clear both flags, call update (when
        editing an existing source) or add, then record how the call ended. */
    method OnSubmit(isEdit: bool, editing: Option<Source>, name: string, balance: real, outcome: Completion)
      returns (request: SourceRequest)
      modifies this
      ensures request == if isEdit && editing.Some? then UpdateSource(editing.value.id, name, balance) else AddSource(name, balance)
      ensures outcome.Normal? ==> error == None && success
      ensures outcome.Threw? ==> error == Some(MessageOr(outcome.message, FailureFallback)) && !success
      ensures !(success && error.Some?)
    {
      error := None;
      success := false;
      if isEdit && editing.Some? {
        request := UpdateSource(editing.value.id, name, balance);
      } else {
        request := AddSource(name, balance);
      }
      if outcome.Normal? {
        success := true;
      } else {
        error := Some(MessageOr(outcome.message, FailureFallback));
      }
    }

    /** `handleSubmit(onSubmit)`: the handler runs only when the schema accepts the form;
        otherwise nothing is called and the flags stay as they were. */
    method Submit(isEdit: bool, editing: Option<Source>, data: SourceFormData, outcome: Completion)
      returns (request: Option<SourceRequest>)
      modifies this
      ensures request.Some? <==> SourceIssues(data) == []
      ensures request.None? ==> error == old(error) && success == old(success)
      ensures request.Some? ==> request.value.balance == data.balance.value && request.value.name == data.name != ""
      ensures request.Some? && isEdit && editing.Some? ==> request.value == UpdateSource(editing.value.id, data.name, data.balance.value)
      ensures request.Some? && !(isEdit && editing.Some?) ==> request.value == AddSource(data.name, data.balance.value)
      ensures request.Some? && outcome.Normal? ==> error == None && success
      ensures request.Some? && outcome.Threw? ==> error == Some(MessageOr(outcome.message, FailureFallback)) && !success
    {
      SourceAccepted(data);
      if SourceIssues(data) == [] {
        var r := OnSubmit(isEdit, editing, data.name, data.balance.value, outcome);
        request := Some(r);
      } else {
        request := None;
      }
    }
  }
}
