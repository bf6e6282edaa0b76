/** The create-incident view: one draft record edited field by field, a submit that sends the
    whole draft and navigates to the list only on success, and a cancel that restores the initial
    draft. The network is an input; the alert shown is returned as its text. */
module CreateIncident {
  import opened Web

  const CreatedNotice: string := "Incident created successfully!"
  const RejectedNotice: string := "Failed to create incident"
  const ErrorNotice: string := "Something went wrong"

  /** The draft of a new incident, which is also the body of the creation request. */
  datatype NewIncident = NewIncident(title: string, service: string, severity: string,
                                     status: string, owner: string, summary: string)

  /** The draft when the view opens and after Cancel: severity SEV1, every other field empty. */
  const InitialDraft: NewIncident := NewIncident("", "", "SEV1", "", "", "")

  /** The names a form input can carry. */
  datatype Field = Title | Service | Severity | Status | Owner | Summary

  function Get(d: NewIncident, f: Field): string
  {
    match f
    case Title => d.title
    case Service => d.service
    case Severity => d.severity
    case Status => d.status
    case Owner => d.owner
    case Summary => d.summary
  }

  /** `{ ...prev, [name]: value }`: field `f` takes `value`, every other field keeps its value. */
  function WithField(d: NewIncident, f: Field, value: string): (r: NewIncident)
    ensures Get(r, f) == value
    ensures forall g :: g != f ==> Get(r, g) == Get(d, g)
  {
    match f
    case Title => d.(title := value)
    case Service => d.(service := value)
    case Severity => d.(severity := value)
    case Status => d.(status := value)
    case Owner => d.(owner := value)
    case Summary => d.(summary := value)
  }

  /** The severity radio buttons: `{ ...prev, severity }`, the same as the generic field edit. */
  function WithSeverity(d: NewIncident, severity: string): (r: NewIncident)
    ensures r.severity == severity
    ensures forall g :: g != Severity ==> Get(r, g) == Get(d, g)
  {
    d.(severity := severity)
  }

  lemma WithSeverityIsFieldEdit(d: NewIncident, severity: string)
    ensures WithSeverity(d, severity) == WithField(d, Severity, severity)
  {
  }

  /** How a creation request ends. */
  datatype Response =
    | NetworkFailure
    | Received(status: nat, bodyDecodes: bool)   // bodyDecodes: `response.json()` succeeds

  /** The incident was created and its response read: the only case that navigates. */
  predicate Succeeded(response: Response)
    ensures Succeeded(response) ==> response.Received? && IsOk(response.status) && response.bodyDecodes
    ensures response.NetworkFailure? ==> !Succeeded(response)
  {
    response.Received? && IsOk(response.status) && response.bodyDecodes
  }

  /** The alert shown when a submit ends. */
  function Notice(response: Response): (text: string)
    ensures text == CreatedNotice <==> Succeeded(response)
    ensures text == RejectedNotice <==> response.Received? && !IsOk(response.status) && response.bodyDecodes
    ensures !Succeeded(response) && !(response.Received? && !IsOk(response.status) && response.bodyDecodes)
            ==> text == ErrorNotice
  {
    match response
    case NetworkFailure => ErrorNotice
    case Received(status, decodes) =>
      if !decodes then ErrorNotice        // reading the body threw
      else if IsOk(status) then CreatedNotice
      else RejectedNotice
  }

  // ---------------------------------------------------------------- the view state

  class CreateView {
    var draft: NewIncident
    var navigations: seq<string>

    constructor ()
      ensures draft == InitialDraft && navigations == []
    {
      draft := InitialDraft;
      navigations := [];
    }

    /** An input changes: only that field of the draft changes. */
    method UpdateField(f: Field, value: string)
      modifies this`draft
      ensures draft == WithField(old(draft), f, value)
      ensures Get(draft, f) == value && forall g :: g != f ==> Get(draft, g) == Get(old(draft), g)
    {
      draft := WithField(draft, f, value);
    }

    /** A severity button is chosen: only the severity changes. */
    method SetSeverity(severity: string)
      modifies this`draft
      ensures draft == WithSeverity(old(draft), severity)
      ensures draft.severity == severity && forall g :: g != Severity ==> Get(draft, g) == Get(old(draft), g)
    {
      draft := WithSeverity(draft, severity);
    }

    /** Submit: the whole draft is sent as it is, with no validation; the draft never changes;
        the view navigates to the list exactly when the creation succeeded. */
    method Submit(response: Response) returns (sent: NewIncident, notice: string)
      modifies this`navigations
      ensures sent == draft && draft == old(draft)
      ensures notice == Notice(response)
      ensures navigations == old(navigations) + (if Succeeded(response) then [ListRoute] else [])
    {
      sent := draft;
      notice := Notice(response);
      if Succeeded(response) {
        navigations := navigations + [ListRoute];
      }
    }

    /** Cancel: back to the initial draft, whatever was entered; no navigation. */
    method Cancel()
      modifies this`draft
      ensures draft == InitialDraft
    {
      draft := InitialDraft;
    }
  }
}
