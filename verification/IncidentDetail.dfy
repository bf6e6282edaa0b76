/** The incident detail view: the editable draft, how a loaded incident becomes the draft, the
    guard that drops a load finishing after the view moved on, the partial-update payload, and the
    saving flag. Fetching, JSON and navigation internals are outside the model: responses are
    inputs, navigation is recorded as the list of routes requested. */
module IncidentDetail {
  import opened Wrappers
  import opened Web

  /** The form's draft of one incident; `assignedTo` is the server's `owner`, `occurredAt` the
      displayed creation date. */
  datatype Draft = Draft(title: string, service: string, severity: string, status: string,
                         assignedTo: string, occurredAt: string, summary: string)

  /** The draft before anything is loaded. */
  const InitialDraft: Draft := Draft("", "", "SEV1", "Open", "", "", "")

  /** The names a form input can carry. */
  datatype Field = Title | Service | Severity | Status | AssignedTo | OccurredAt | Summary

  function Get(d: Draft, f: Field): string
  {
    match f
    case Title => d.title
    case Service => d.service
    case Severity => d.severity
    case Status => d.status
    case AssignedTo => d.assignedTo
    case OccurredAt => d.occurredAt
    case Summary => d.summary
  }

  /** `{ ...prev, [name]: value }`: field `f` takes `value`, every other field keeps its value. */
  function WithField(d: Draft, f: Field, value: string): (r: Draft)
    ensures Get(r, f) == value
    ensures forall g :: g != f ==> Get(r, g) == Get(d, g)
  {
    match f
    case Title => d.(title := value)
    case Service => d.(service := value)
    case Severity => d.(severity := value)
    case Status => d.(status := value)
    case AssignedTo => d.(assignedTo := value)
    case OccurredAt => d.(occurredAt := value)
    case Summary => d.(summary := value)
  }

  /** Writing the value a field already has changes nothing. */
  lemma WithFieldSame(d: Draft, f: Field)
    ensures WithField(d, f, Get(d, f)) == d
  {
  }

  /** Edits of two different fields commute. */
  lemma WithFieldCommute(d: Draft, f: Field, v: string, g: Field, w: string)
    requires f != g
    ensures WithField(WithField(d, f, v), g, w) == WithField(WithField(d, g, w), f, v)
  {
  }

  // ---------------------------------------------------------------- loading

  /** An incident as the server returns it; a field may be absent or null (None). */
  datatype ServerIncident = ServerIncident(title: Option<string>, service: Option<string>,
                                           severity: Option<string>, status: Option<string>,
                                           owner: Option<string>, createdAt: Option<string>,
                                           summary: Option<string>)

  /** `value || fallback` for a string field: absent, null and "" all fall back. */
  function OrDefault(value: Option<string>, fallback: string): (r: string)
    ensures value.Some? && value.value != "" ==> r == value.value
    ensures (value.None? || value.value == "") ==> r == fallback
  {
    if value.Some? && value.value != "" then value.value else fallback
  }

  /** The draft a loaded incident becomes. `formatDate` stands for the locale's date rendering. */
  function ToDraft(data: ServerIncident, formatDate: string -> string): (r: Draft)
    ensures r.severity != "" && r.status != ""
  {
    Draft(
      OrDefault(data.title, ""),
      OrDefault(data.service, ""),
      OrDefault(data.severity, "SEV1"),
      OrDefault(data.status, "Open"),
      OrDefault(data.owner, ""),
      if data.createdAt.Some? && data.createdAt.value != "" then formatDate(data.createdAt.value) else "",
      OrDefault(data.summary, ""))
  }

  /** The server field each draft field is loaded from. */
  function ServerField(data: ServerIncident, f: Field): Option<string>
  {
    match f
    case Title => data.title
    case Service => data.service
    case Severity => data.severity
    case Status => data.status
    case AssignedTo => data.owner
    case OccurredAt => data.createdAt
    case Summary => data.summary
  }

  /** Each draft field is its server field (the creation date rendered by `formatDate`) when that
      is present and non-empty, and otherwise the initial draft's value for it. */
  lemma LoadedField(data: ServerIncident, formatDate: string -> string, f: Field)
    ensures Get(ToDraft(data, formatDate), f)
         == match ServerField(data, f)
            case Some(v) => if v == "" then Get(InitialDraft, f) else if f == OccurredAt then formatDate(v) else v
            case None => Get(InitialDraft, f)
  {
  }

  /** Every field missing from the server incident gets the initial draft's value. */
  lemma EmptyIncidentLoadsInitialDraft(formatDate: string -> string)
    ensures ToDraft(ServerIncident(None, None, None, None, None, None, None), formatDate) == InitialDraft
  {
  }

  // ---------------------------------------------------------------- saving

  /** The body of the partial update: exactly these five keys; None is JSON null. */
  datatype Payload = Payload(title: string, severity: string, status: string,
                             owner: Option<string>, summary: Option<string>)

  /** `value || null`. */
  function OrNull(value: string): (r: Option<string>)
    ensures r.None? <==> value == ""
    ensures r.Some? ==> r.value == value
  {
    if value == "" then None else Some(value)
  }

  /** The update payload of a draft: title, severity and status as they are, assignee and summary
      with "" sent as null. */
  function MakePayload(d: Draft): (p: Payload)
    ensures p.title == d.title && p.severity == d.severity && p.status == d.status
    ensures p.owner.None? <==> d.assignedTo == ""
    ensures p.owner.Some? ==> p.owner.value == d.assignedTo
    ensures p.summary.None? <==> d.summary == ""
    ensures p.summary.Some? ==> p.summary.value == d.summary
  {
    Payload(d.title, d.severity, d.status, OrNull(d.assignedTo), OrNull(d.summary))
  }

  /** The service and the displayed date are never sent: the payload does not depend on them. */
  lemma PayloadIgnoresReadOnlyFields(d: Draft, service: string, occurredAt: string)
    ensures MakePayload(d.(service := service, occurredAt := occurredAt)) == MakePayload(d)
  {
  }

  /** Loading an incident and saving it untouched sends back what the server holds, with absent or
      empty owner and summary as null and the severity and status defaults filled in. */
  lemma UntouchedRoundTrip(data: ServerIncident, formatDate: string -> string)
    ensures var p := MakePayload(ToDraft(data, formatDate));
      && p.title == OrDefault(data.title, "")
      && p.severity == OrDefault(data.severity, "SEV1")
      && p.status == OrDefault(data.status, "Open")
      && p.owner == (if data.owner.Some? && data.owner.value != "" then data.owner else None)
      && p.summary == (if data.summary.Some? && data.summary.value != "" then data.summary else None)
  {
  }

  /** How a request of this view ends. */
  datatype Response =
    | NetworkFailure
    | Received(status: nat, body: Option<ServerIncident>)   // None: the body is not valid JSON

  /** The incident a load or save delivers, if the request succeeded and the body decoded. */
  function Delivered(response: Response): (r: Option<ServerIncident>)
    ensures r.Some? ==> response.Received? && IsOk(response.status)
    ensures response.Received? && IsOk(response.status) ==> r == response.body
  {
    match response
    case NetworkFailure => None
    case Received(status, body) => if IsOk(status) then body else None
  }

  // ---------------------------------------------------------------- the view state

  class DetailView {
    const id: Option<string>
    var draft: Draft
    var saving: bool
    var loading: bool
    var navigations: seq<string>

    constructor (id: Option<string>)
      ensures this.id == id
      ensures draft == InitialDraft && !saving && !loading && navigations == []
    {
      this.id := id;
      draft := InitialDraft;
      saving := false;
      loading := false;
      navigations := [];
    }

    /** The load effect starts: without an id nothing happens; otherwise loading goes on. */
    method StartLoad() returns (requested: bool)
      modifies this`loading
      ensures requested <==> id.Some?
      ensures loading == if requested then true else old(loading)
    {
      requested := id.Some?;
      if requested {
        loading := true;
      }
    }

    /** The load finishes. `cancelled` is true when the view unmounted or the id changed since the
        load started: then nothing changes. Otherwise loading goes off and a delivered incident
        replaces the draft; a failed load keeps the draft. */
    method CompleteLoad(cancelled: bool, response: Response, formatDate: string -> string)
      modifies this`draft, this`loading
      ensures cancelled ==> draft == old(draft) && loading == old(loading)
      ensures !cancelled ==> !loading
      ensures !cancelled ==> draft == match Delivered(response)
                                      case Some(data) => ToDraft(data, formatDate)
                                      case None => old(draft)
    {
      if !cancelled {
        match Delivered(response) {
          case Some(data) =>
            draft := ToDraft(data, formatDate);
          case None =>
        }
        loading := false;
      }
    }

    /** An input changes: only that field of the draft changes. */
    method UpdateField(f: Field, value: string)
      modifies this`draft
      ensures draft == WithField(old(draft), f, value)
      ensures Get(draft, f) == value && forall g :: g != f ==> Get(draft, g) == Get(old(draft), g)
    {
      draft := WithField(draft, f, value);
    }

    /** Save is pressed: without an id nothing happens; otherwise saving goes on and the payload
        of the current draft is sent. */
    method BeginSave() returns (sent: Option<Payload>)
      modifies this`saving
      ensures sent.None? <==> id.None?
      ensures sent.Some? ==> sent.value == MakePayload(draft)
      ensures saving == if id.Some? then true else old(saving)
    {
      if id.None? {
        sent := None;
      } else {
        saving := true;
        sent := Some(MakePayload(draft));
      }
    }

    /** The save finishes: saving always goes off; only a successful update navigates to the list.
        The draft is never touched. */
    method CompleteSave(response: Response)
      modifies this`saving, this`navigations
      ensures !saving
      ensures navigations == old(navigations) + (if Delivered(response).Some? then [ListRoute] else [])
    {
      if Delivered(response).Some? {
        navigations := navigations + [ListRoute];
      }
      saving := false;
    }

    /** Cancel navigates to the list and keeps the draft. */
    method Cancel()
      modifies this`navigations
      ensures navigations == old(navigations) + [ListRoute]
    {
      navigations := navigations + [ListRoute];
    }
  }
}
