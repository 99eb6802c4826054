/** The dashboard page (src/DashboardPage.jsx): its local UI state, the entry
    form's validation and the `entryData` it builds, the form toggle and edit
    handlers, the accordion, the per-tab fetch/clear effects, the share link and
    the logged-in label. Number parsing and the clock are parameters. */
module Dashboard {
  import opened JsValues
  import opened JsStrings
  import opened AuthSlice
  import opened WorkLogSlice

  const NotAuthenticatedMessage := "User not authenticated or user ID not available. Please log in again."
  const RequiredFieldsMessage := "Please fill in all required fields (Project, Task, Hours, Date)."
  const NonPositiveHoursMessage := "Hours Spent must be a positive number."
  const DeleteNotAuthenticatedMessage := "User not authenticated."
  const DefaultStatus := "In Progress"
  const MyLogTab := "my-log"
  const PublicLogsTab := "public-logs"

  /** `session?.user?.id`. */
  function SessionUserId(session: Option<Session>): (uid: Option<string>)
    ensures uid.Some? <==> SessionUser(session).Some?
    ensures uid.Some? ==> uid.value == SessionUser(session).value.id
  {
    match SessionUser(session)
    case None => None
    case Some(user) => Some(user.id)
  }

  // ---------------------------------------------------------------------------
  // The entry form.

  /** The values of the form's state hooks. */
  datatype Form = Form(
    project: string,
    taskDescription: string,
    hoursSpent: string,
    status: string,
    entryDate: string,
    isPublic: bool,
    editingEntryId: Option<string>)

  /** A change event from one of the form's controls: the text typed into a field,
      the option picked, or the checkbox's new state. */
  datatype FieldInput =
    | ProjectTyped(text: string)
    | TaskTyped(text: string)
    | HoursTyped(text: string)
    | StatusPicked(text: string)
    | DateTyped(text: string)
    | PublicChecked(checked: bool)

  /** The form after a reset; `today` is the date part of the current time. */
  function BlankForm(today: string): Form
  {
    Form("", "", "", DefaultStatus, today, false, None)
  }

  /** A form holding no input and no entry being edited; only the date may differ. */
  predicate IsBlank(form: Form)
  {
    form == BlankForm(form.entryDate)
  }

  /** The submit handler's checks and the `entryData` it builds. `hoursValue` is the
      value the handler reads for the hours field and `parsedHours` what
      `parseFloat` makes of it (None for NaN); `now` is the current timestamp. */
  function BuildEntryWith(userId: Option<string>, form: Form, hoursValue: Option<string>,
                          parsedHours: Option<real>, now: string): (r: Result<EntryData, string>)
    ensures !Truthy(userId) ==> r == Err(NotAuthenticatedMessage)
    ensures Truthy(userId)
            && (form.project == "" || form.taskDescription == "" || !Truthy(hoursValue) || form.entryDate == "")
            ==> r == Err(RequiredFieldsMessage)
    ensures r.Ok? <==>
              && Truthy(userId) && form.project != "" && form.taskDescription != ""
              && Truthy(hoursValue) && form.entryDate != ""
              && parsedHours.Some? && parsedHours.value > 0.0
    ensures r.Err? ==> r.error in {NotAuthenticatedMessage, RequiredFieldsMessage, NonPositiveHoursMessage}
    ensures r.Ok? ==>
              && r.value.userId == userId
              && r.value.project == Trim(form.project)
              && r.value.taskDescription == Trim(form.taskDescription)
              && r.value.hoursSpent == parsedHours.value
              && r.value.status == form.status
              && r.value.entryDate == form.entryDate
              && r.value.createdAt == now
              && r.value.isPublic == form.isPublic
              && (r.value.id.Some? <==> Truthy(form.editingEntryId))
              && (r.value.id.Some? ==> r.value.id == form.editingEntryId)
  {
    if !Truthy(userId) then Err(NotAuthenticatedMessage)
    else if form.project == "" || form.taskDescription == "" || !Truthy(hoursValue) || form.entryDate == "" then
      Err(RequiredFieldsMessage)
    else if parsedHours.None? || parsedHours.value <= 0.0 then Err(NonPositiveHoursMessage)
    else
      Ok(EntryData(
        if Truthy(form.editingEntryId) then form.editingEntryId else None,
        userId,
        Trim(form.project),
        Trim(form.taskDescription),
        parsedHours.value,
        form.status,
        form.entryDate,
        now,
        form.isPublic))
  }

  /** The submit handler with the hours field held as text, as its author intended. */
  function BuildEntry(session: Option<Session>, form: Form, parsedHours: Option<real>, now: string)
    : (r: Result<EntryData, string>)
    ensures r.Ok? <==>
              && Truthy(SessionUserId(session)) && form.project != "" && form.taskDescription != ""
              && form.hoursSpent != "" && form.entryDate != "" && parsedHours.Some? && parsedHours.value > 0.0
    ensures r.Ok? ==> r.value.userId == SessionUserId(session) && r.value.hoursSpent == parsedHours.value
  {
    BuildEntryWith(SessionUserId(session), form, Some(form.hoursSpent), parsedHours, now)
  }

  /** The submit handler as the page is written: the hours "state" comes from
      destructuring the string '' and is `undefined`. */
  function BuildEntryAsWritten(session: Option<Session>, form: Form, parsedHours: Option<real>, now: string)
    : Result<EntryData, string>
  {
    BuildEntryWith(SessionUserId(session), form, None, parsedHours, now)
  }

  /** As written, no submission ever gets past validation: a signed-in user is always
      told to fill in the required fields, whatever the form holds. */
  lemma AsWrittenSubmitAlwaysRejected(session: Option<Session>, form: Form, parsedHours: Option<real>, now: string)
    ensures BuildEntryAsWritten(session, form, parsedHours, now)
            == Err(if Truthy(SessionUserId(session)) then RequiredFieldsMessage else NotAuthenticatedMessage)
  {
  }

  /** A complete form that the intended handler accepts and the written one refuses. */
  lemma AsWrittenRejectsCompleteForm()
    ensures var session := Some(Session("token", Some(User("u1", None, UserMetadata(None, None, None, None)))));
            var form := Form("Docs", "Write the guide", "2.5", DefaultStatus, "2024-05-01", false, None);
            && BuildEntry(session, form, Some(2.5), "2024-05-01T10:00:00.000Z").Ok?
            && BuildEntryAsWritten(session, form, Some(2.5), "2024-05-01T10:00:00.000Z") == Err(RequiredFieldsMessage)
  {
    var session := Some(Session("token", Some(User("u1", None, UserMetadata(None, None, None, None)))));
    assert SessionUserId(session) == Some("u1");
  }

  /** Whatever the form builds passes the work-log slice's user-id guard, and the
      write it causes is an update of the edited entry when one is being edited and
      an insert otherwise. */
  lemma BuiltEntryIsWritten(session: Option<Session>, form: Form, parsedHours: Option<real>, now: string,
                            table: seq<Row>, newId: string, reply: BackendReply)
    requires BuildEntry(session, form, parsedHours, now).Ok?
    ensures var entry := BuildEntry(session, form, parsedHours, now).value;
            var w := SaveEntry(entry, table, newId, reply);
            && !w.request.NoWrite?
            && (w.request.UpdateRequest? <==> Truthy(form.editingEntryId))
            && (w.request.UpdateRequest? ==>
                  w.request.id == form.editingEntryId.value && w.request.userId == SessionUser(session).value.id)
            && (w.result.Fulfilled? <==> reply.Succeeded?)
  {
  }

  /** The form `handleEdit` fills in from an entry; `hoursText` is the entry's hours
      converted to text. */
  function FormFromRow(entry: Row, hoursText: string): Form
  {
    Form(entry.project, entry.taskDescription, hoursText, entry.status, entry.entryDate, entry.isPublic, Some(entry.id))
  }

  /** Editing an entry of one's own and submitting it unchanged writes back to that
      same entry, with the same project, description, hours, status, date and
      visibility. */
  lemma EditThenSubmitUpdatesSameRow(session: Option<Session>, entry: Row, hoursText: string, now: string,
                                     table: seq<Row>, newId: string)
    requires SessionUserId(session) == Some(entry.userId) && entry.userId != "" && entry.id != ""
    requires entry.project == Trim(entry.project) && entry.project != ""
    requires entry.taskDescription == Trim(entry.taskDescription) && entry.taskDescription != ""
    requires hoursText != "" && entry.entryDate != "" && entry.hoursSpent > 0.0
    ensures var built := BuildEntry(session, FormFromRow(entry, hoursText), Some(entry.hoursSpent), now);
            && built.Ok?
            && SaveEntry(built.value, table, newId, Succeeded).request
               == UpdateRequest(entry.id, entry.userId, StoredRow(built.value, entry.id))
            && StoredRow(built.value, entry.id) == entry.(createdAt := now)
  {
  }

  // ---------------------------------------------------------------------------
  // The accordion.

  /** The `toggleAccordion` updater: collapse when `id` is the expanded entry,
      otherwise expand `id`. */
  function NextExpanded(prev: Option<string>, id: string): (next: Option<string>)
    ensures next.None? <==> prev == Some(id)
    ensures next.Some? ==> next.value == id
  {
    if prev == Some(id) then None else Some(id)
  }

  /** Toggling the same entry twice restores the accordion when nothing or that
      entry was expanded. */
  lemma ToggleTwiceRestores(prev: Option<string>, id: string)
    requires prev.None? || prev == Some(id)
    ensures NextExpanded(NextExpanded(prev, id), id) == prev
  {
  }

  /** It does not when another entry was expanded: that entry stays collapsed. */
  lemma ToggleTwiceFromOtherEntry()
    ensures NextExpanded(NextExpanded(Some("a"), "b"), "b") == None
  {
  }

  // ---------------------------------------------------------------------------
  // Per-tab effects.

  /** The own-entries effect: fetch on the my-log tab when a user is signed in,
      clear on that tab when none is, nothing on other tabs. */
  datatype MyLogEffect = FetchMyLogs(userId: string) | ClearMyLogs | NoMyLogEffect

  function MyLogEffectFor(session: Option<Session>, currentPage: string): (e: MyLogEffect)
    ensures e.FetchMyLogs? <==> SessionUser(session).Some? && currentPage == MyLogTab
    ensures e.FetchMyLogs? ==> e.userId == SessionUser(session).value.id
    ensures e == ClearMyLogs <==> SessionUser(session).None? && currentPage == MyLogTab
    ensures e == NoMyLogEffect <==> currentPage != MyLogTab
  {
    if currentPage != MyLogTab then NoMyLogEffect
    else match SessionUser(session)
      case Some(user) => FetchMyLogs(user.id)
      case None => ClearMyLogs
  }

  // ---------------------------------------------------------------------------
  // Share link and logged-in label.

  const ShareLinkPath := "/public-log-view?id="

  /** `generateShareLink`: the origin, the public-view path and the entry id. */
  function ShareLink(origin: string, entryId: string): string
  {
    origin + ShareLinkPath + entryId
  }

  /** Reads the entry id back out of a share link made for `origin`. */
  function SharedEntryId(origin: string, link: string): (id: Option<string>)
    ensures id.Some? ==> ShareLink(origin, id.value) == link
  {
    var prefix := origin + ShareLinkPath;
    if |prefix| <= |link| && link[..|prefix|] == prefix then Some(link[|prefix|..]) else None
  }

  /** A share link names its entry: the id can be read back, so different entries
      get different links. */
  lemma ShareLinkRoundTrip(origin: string, entryId: string)
    ensures SharedEntryId(origin, ShareLink(origin, entryId)) == Some(entryId)
  {
    var prefix := origin + ShareLinkPath;
    assert ShareLink(origin, entryId) == prefix + entryId;
    assert (prefix + entryId)[..|prefix|] == prefix;
    assert (prefix + entryId)[|prefix|..] == entryId;
  }

  lemma ShareLinkInjective(origin: string, a: string, b: string)
    requires ShareLink(origin, a) == ShareLink(origin, b)
    ensures a == b
  {
    ShareLinkRoundTrip(origin, a);
    ShareLinkRoundTrip(origin, b);
  }

  /** The sidebar's "Logged in as" text, shown only while the session has a user:
      the profile's display name, else the user's email, else the user id. */
  function LoggedInLabel(profile: Option<Profile>, session: Option<Session>): (shown: Option<string>)
    ensures shown.Some? <==> SessionUser(session).Some?
  {
    match SessionUser(session)
    case None => None
    case Some(user) =>
      var displayName := if profile.Some? then profile.value.displayName else None;
      Some(Or(Or(displayName, user.email), Some(user.id)).value)
  }

  /** The label is the first truthy one of the display name and the email, and the
      user id when neither is. */
  lemma LoggedInLabelFallback(profile: Option<Profile>, session: Option<Session>)
    requires SessionUser(session).Some?
    ensures var user := SessionUser(session).value;
            var displayName := if profile.Some? then profile.value.displayName else None;
            && LoggedInLabel(profile, session) == FirstTruthy([displayName, user.email], Some(user.id))
            && (Truthy(displayName) ==> LoggedInLabel(profile, session) == displayName)
            && (!Truthy(displayName) && Truthy(user.email) ==> LoggedInLabel(profile, session) == user.email)
            && (!Truthy(displayName) && !Truthy(user.email) ==> LoggedInLabel(profile, session) == Some(user.id))
  {
    var user := SessionUser(session).value;
    var displayName := if profile.Some? then profile.value.displayName else None;
    var cs := [displayName, user.email];
    assert cs[1..] == [user.email];
    assert cs[1..][1..] == [];
  }

  /** For a profile the app provisioned itself, the label is the first truthy one of
      the metadata display name, full name and name and the email, and the user id
      when none is. */
  lemma LoggedInLabelForNewProfile(session: Option<Session>)
    requires SessionUser(session).Some?
    ensures var user := SessionUser(session).value;
            var md := user.metadata;
            LoggedInLabel(Some(NewProfile(user.id, user)), session)
            == Or(md.displayName, Or(md.fullName, Or(md.name, Or(user.email, Some(user.id)))))
  {
  }

  // ---------------------------------------------------------------------------
  // The page's local state.

  /** The dashboard's `useState` hooks that its handlers change. */
  class PageState {
    var currentPage: string
    var showAddEntryForm: bool
    var project: string
    var taskDescription: string
    var hoursSpent: string
    var status: string
    var entryDate: string
    var isPublic: bool
    var editingEntryId: Option<string>
    var expandedEntryId: Option<string>

    /** The form's fields as one value. */
    function FormValues(): Form
      reads this
    {
      Form(project, taskDescription, hoursSpent, status, entryDate, isPublic, editingEntryId)
    }

    /** A hidden form holds no input and no entry being edited, so opening it for a
        new entry always starts from blank fields. */
    predicate HiddenFormIsBlank()
      reads this
    {
      !showAddEntryForm ==> IsBlank(FormValues())
    }

    constructor (today: string)
      ensures currentPage == MyLogTab && !showAddEntryForm && expandedEntryId.None?
      ensures FormValues() == BlankForm(today)
      ensures HiddenFormIsBlank()
    {
      currentPage := MyLogTab;
      showAddEntryForm := false;
      project, taskDescription, hoursSpent := "", "", "";
      status := DefaultStatus;
      entryDate := today;
      isPublic := false;
      editingEntryId := None;
      expandedEntryId := None;
    }

    /** Clears every field, as the reset branch of `toggleAddEntryForm` does. */
    method ResetForm(today: string)
      modifies this
      ensures FormValues() == BlankForm(today)
      ensures currentPage == old(currentPage) && showAddEntryForm == old(showAddEntryForm)
      ensures expandedEntryId == old(expandedEntryId)
    {
      editingEntryId := None;
      project := "";
      taskDescription := "";
      hoursSpent := "";
      status := DefaultStatus;
      entryDate := today;
      isPublic := false;
    }

    /** `toggleAddEntryForm`: flips visibility, and resets the fields when the form
        was shown or an edit was in progress. */
    method ToggleAddEntryForm(today: string)
      modifies this
      ensures showAddEntryForm == !old(showAddEntryForm)
      ensures old(showAddEntryForm) || Truthy(old(editingEntryId)) ==> FormValues() == BlankForm(today)
      ensures !old(showAddEntryForm) && !Truthy(old(editingEntryId)) ==> FormValues() == old(FormValues())
      ensures currentPage == old(currentPage) && expandedEntryId == old(expandedEntryId)
      ensures HiddenFormIsBlank()
      ensures old(HiddenFormIsBlank()) && !old(showAddEntryForm) ==> showAddEntryForm && IsBlank(FormValues())
    {
      var wasShown := showAddEntryForm;
      showAddEntryForm := !showAddEntryForm;
      if wasShown || Truthy(editingEntryId) {
        ResetForm(today);
      }
    }

    /** `handleEdit`: loads an entry into the form, marks it as being edited and
        shows the form. */
    method HandleEdit(entry: Row, hoursText: string)
      modifies this
      ensures FormValues() == FormFromRow(entry, hoursText)
      ensures showAddEntryForm && HiddenFormIsBlank()
      ensures currentPage == old(currentPage) && expandedEntryId == old(expandedEntryId)
    {
      editingEntryId := Some(entry.id);
      project := entry.project;
      taskDescription := entry.taskDescription;
      hoursSpent := hoursText;
      status := entry.status;
      entryDate := entry.entryDate;
      isPublic := entry.isPublic;
      showAddEntryForm := true;
    }

    /** `toggleAddEntryForm` as the page is written: in the reset branch the call of
        the undefined hours setter throws, so the visibility flip and the first three
        resets take effect and status, date and visibility keep their old values. */
    method ToggleAddEntryFormAsWritten(today: string) returns (threw: bool)
      modifies this
      ensures threw <==> old(showAddEntryForm) || Truthy(old(editingEntryId))
      ensures showAddEntryForm == !old(showAddEntryForm)
      ensures threw ==>
                FormValues() == old(FormValues()).(editingEntryId := None, project := "", taskDescription := "")
      ensures !threw ==> FormValues() == old(FormValues())
      ensures currentPage == old(currentPage) && expandedEntryId == old(expandedEntryId)
    {
      var wasShown := showAddEntryForm;
      showAddEntryForm := !showAddEntryForm;
      threw := wasShown || Truthy(editingEntryId);
      if threw {
        editingEntryId := None;
        project := "";
        taskDescription := "";
      }
    }

    /** `handleEdit` as the page is written: the call of the undefined hours setter
        throws after the id, project and description are loaded, so the form is
        never shown and status, date and visibility are not loaded. */
    method HandleEditAsWritten(entry: Row)
      modifies this
      ensures FormValues() == old(FormValues()).(editingEntryId := Some(entry.id), project := entry.project,
                                                 taskDescription := entry.taskDescription)
      ensures showAddEntryForm == old(showAddEntryForm)
      ensures currentPage == old(currentPage) && expandedEntryId == old(expandedEntryId)
    {
      editingEntryId := Some(entry.id);
      project := entry.project;
      taskDescription := entry.taskDescription;
    }

    /** The `onChange` handlers of the form's controls, which exist only while the
        form is shown: each one sets its own field and nothing else, so the entry
        being edited, the form's visibility and the rest of the page stay. The hours
        field is the corrected text field. */
    method InputChange(input: FieldInput)
      requires showAddEntryForm
      modifies this
      ensures input.ProjectTyped? ==> FormValues() == old(FormValues()).(project := input.text)
      ensures input.TaskTyped? ==> FormValues() == old(FormValues()).(taskDescription := input.text)
      ensures input.HoursTyped? ==> FormValues() == old(FormValues()).(hoursSpent := input.text)
      ensures input.StatusPicked? ==> FormValues() == old(FormValues()).(status := input.text)
      ensures input.DateTyped? ==> FormValues() == old(FormValues()).(entryDate := input.text)
      ensures input.PublicChecked? ==> FormValues() == old(FormValues()).(isPublic := input.checked)
      ensures showAddEntryForm && HiddenFormIsBlank()
      ensures currentPage == old(currentPage) && expandedEntryId == old(expandedEntryId)
    {
      match input {
      case ProjectTyped(text) => project := text;
      case TaskTyped(text) => taskDescription := text;
      case HoursTyped(text) => hoursSpent := text;
      case StatusPicked(text) => status := text;
      case DateTyped(text) => entryDate := text;
      case PublicChecked(checked) => isPublic := checked;
      }
    }

    /** `toggleAccordion`. */
    method ToggleAccordion(entryId: string)
      modifies this
      ensures expandedEntryId == NextExpanded(old(expandedEntryId), entryId)
      ensures expandedEntryId.None? <==> old(expandedEntryId) == Some(entryId)
      ensures FormValues() == old(FormValues()) && showAddEntryForm == old(showAddEntryForm)
      ensures currentPage == old(currentPage)
    {
      expandedEntryId := NextExpanded(expandedEntryId, entryId);
    }

    /** A tab button: switches the page and leaves the form and accordion alone. */
    method SetCurrentPage(page: string)
      modifies this
      ensures currentPage == page
      ensures FormValues() == old(FormValues()) && showAddEntryForm == old(showAddEntryForm)
      ensures expandedEntryId == old(expandedEntryId)
    {
      currentPage := page;
    }

    /** `handleAddOrUpdateEntry`: validation failures become the auth error and
        nothing is written; a valid entry goes to `addOrUpdateWorkLog`, and when that
        is fulfilled the form is toggled (hidden and reset). */
    method HandleAddOrUpdateEntry(auth: AuthStore, workLog: WorkLogStore, parsedHours: Option<real>,
                                  now: string, today: string, table: seq<Row>, newId: string, reply: BackendReply)
      returns (built: Result<EntryData, string>, newTable: seq<Row>)
      modifies this, auth, workLog
      ensures built == BuildEntry(old(auth.session), old(FormValues()), parsedHours, now)
      ensures built.Err? ==>
                && auth.State() == old(auth.State()).(error := Some(built.error), isLoading := false)
                && workLog.State() == old(workLog.State())
                && newTable == table
                && FormValues() == old(FormValues()) && showAddEntryForm == old(showAddEntryForm)
      ensures built.Ok? ==>
                && auth.State() == old(auth.State())
                && newTable == SaveEntry(built.value, table, newId, reply).table
                && (reply.Succeeded? ==> showAddEntryForm == !old(showAddEntryForm))
                && (reply.Succeeded? && old(showAddEntryForm) ==> !showAddEntryForm && FormValues() == BlankForm(today))
                && (reply.Failed? ==> FormValues() == old(FormValues()) && showAddEntryForm == old(showAddEntryForm))
                && workLog.State() == old(workLog.State()).(
                     isLoading := false,
                     error := if reply.Succeeded? then None else Or(reply.message, Some(DefaultRejection(Save))))
      ensures old(HiddenFormIsBlank()) ==> HiddenFormIsBlank()
      ensures currentPage == old(currentPage) && expandedEntryId == old(expandedEntryId)
    {
      built := BuildEntry(auth.session, FormValues(), parsedHours, now);
      newTable := table;
      match built {
      case Err(message) =>
        auth.SetAuthError(Some(message));
      case Ok(entry) =>
        var result;
        result, newTable := workLog.AddOrUpdateWorkLog(entry, table, newId, reply);
        if result.Fulfilled? {
          ToggleAddEntryForm(today);
        }
      }
    }

    /** `handleDelete`: without a signed-in user the auth error is set; otherwise,
        once the visitor confirms, `deleteWorkLog` runs scoped to that user. */
    method HandleDelete(auth: AuthStore, workLog: WorkLogStore, entryId: string, confirmed: bool,
                        table: seq<Row>, reply: BackendReply)
      returns (newTable: seq<Row>)
      modifies auth, workLog
      ensures SessionUser(old(auth.session)).None? ==>
                && auth.State() == old(auth.State()).(error := Some(DeleteNotAuthenticatedMessage), isLoading := false)
                && workLog.State() == old(workLog.State()) && newTable == table
      ensures SessionUser(old(auth.session)).Some? ==> auth.State() == old(auth.State())
      ensures SessionUser(old(auth.session)).Some? && !confirmed ==>
                workLog.State() == old(workLog.State()) && newTable == table
      ensures SessionUser(old(auth.session)).Some? && confirmed ==>
                && newTable == (if reply.Succeeded? then DeleteWhere(table, entryId, SessionUser(old(auth.session)).value.id)
                                else table)
                && workLog.State() == old(workLog.State()).(
                     isLoading := false,
                     error := if reply.Succeeded? then None else Or(reply.message, Some(DefaultRejection(Remove))))
    {
      newTable := table;
      var user := SessionUser(auth.session);
      if user.None? {
        auth.SetAuthError(Some(DeleteNotAuthenticatedMessage));
        return;
      }
      if confirmed {
        var result;
        result, newTable := workLog.DeleteWorkLog(entryId, user.value.id, table, reply);
      }
    }

    /** The own-entries effect run to completion: after it, on the my-log tab, the
        own entries are exactly the signed-in user's rows (when the fetch succeeds)
        or empty (when nobody is signed in). */
    method RunMyLogEffect(workLog: WorkLogStore, session: Option<Session>, table: seq<Row>, reply: BackendReply)
      returns (effect: MyLogEffect)
      modifies workLog
      ensures effect == MyLogEffectFor(session, currentPage)
      ensures effect == NoMyLogEffect ==> workLog.State() == old(workLog.State())
      ensures effect == ClearMyLogs ==>
                workLog.State() == old(workLog.State()).(myEntries := [], isLoading := false, error := None)
      ensures effect.FetchMyLogs? && reply.Succeeded? ==>
                && workLog.State() == old(workLog.State()).(
                     myEntries := MyEntriesQuery(table, effect.userId), isLoading := false, error := None)
                && (forall row: Row :: row in workLog.myEntries <==> row in table && row.userId == effect.userId)
      ensures effect.FetchMyLogs? && reply.Failed? ==>
                workLog.State() == old(workLog.State()).(
                  isLoading := false, error := Or(reply.message, Some(DefaultRejection(FetchMine))))
    {
      effect := MyLogEffectFor(session, currentPage);
      match effect {
      case NoMyLogEffect =>
      case ClearMyLogs =>
        workLog.SetMyEntries([]);
      case FetchMyLogs(userId) =>
        var result := workLog.FetchMyWorkLogs(userId, table, reply);
        MyEntriesQueryExact(table, userId);
      }
    }

    /** The public-entries effect run to completion: the public tab fetches the
        public rows; any other tab empties the public list. */
    method RunPublicLogEffect(workLog: WorkLogStore, table: seq<Row>, reply: BackendReply)
      returns (fetched: bool)
      modifies workLog
      ensures fetched <==> currentPage == PublicLogsTab
      ensures !fetched ==>
                workLog.State() == old(workLog.State()).(publicEntries := [], isLoading := false, error := None)
      ensures fetched && reply.Succeeded? ==>
                && workLog.State() == old(workLog.State()).(
                     publicEntries := PublicEntriesQuery(table), isLoading := false, error := None)
                && (forall row: Row :: row in workLog.publicEntries <==> row in table && row.isPublic)
      ensures fetched && reply.Failed? ==>
                workLog.State() == old(workLog.State()).(
                  isLoading := false, error := Or(reply.message, Some(DefaultRejection(FetchPublic))))
    {
      fetched := currentPage == PublicLogsTab;
      if fetched {
        var result := workLog.FetchPublicWorkLogs(table, reply);
        PublicEntriesQueryExact(table);
      } else {
        workLog.SetPublicEntries([]);
      }
    }
  }

  /** The error banner's close button: clears both slices' errors, which as a side
      effect also ends both loading flags. */
  method DismissErrors(auth: AuthStore, workLog: WorkLogStore)
    modifies auth, workLog
    ensures auth.State() == old(auth.State()).(error := None, isLoading := false)
    ensures workLog.State() == old(workLog.State()).(error := None, isLoading := false)
  {
    auth.SetAuthError(None);
    workLog.SetWorkLogError(None);
  }
}
