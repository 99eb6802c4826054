/** The work-log slice of the Redux store (src/features/workLog/workLogSlice.js):
    its state record, reducers and thunks, and the `work_log_entries` table the
    thunks query and write, modelled as a sequence of rows. */
module WorkLogSlice {
  import opened JsValues
  import opened JsStrings

  /** A row of the `work_log_entries` table. Dates and timestamps are ISO-8601 text. */
  datatype Row = Row(
    id: string,
    userId: string,
    project: string,
    taskDescription: string,
    hoursSpent: real,
    status: string,
    entryDate: string,
    createdAt: string,
    isPublic: bool)

  /** The `entryData` object handed to `addOrUpdateWorkLog`: `id` is present when an
      existing entry is edited; `user_id` may be missing. */
  datatype EntryData = EntryData(
    id: Option<string>,
    userId: Option<string>,
    project: string,
    taskDescription: string,
    hoursSpent: real,
    status: string,
    entryDate: string,
    createdAt: string,
    isPublic: bool)

  /** The slice state `{myEntries, publicEntries, isLoading, error}`. */
  datatype WorkLogState = WorkLogState(
    myEntries: seq<Row>,
    publicEntries: seq<Row>,
    isLoading: bool,
    error: Option<string>)

  const InitialWorkLogState := WorkLogState([], [], false, None)

  /** The four async thunks; each has its own pending/fulfilled/rejected cases. */
  datatype Thunk = FetchMine | FetchPublic | Save | Remove

  /** What a rejected case stores when the rejection payload is falsy. */
  function DefaultRejection(t: Thunk): string
  {
    match t
    case FetchMine => "Failed to fetch my work logs."
    case FetchPublic => "Failed to fetch public work logs."
    case Save => "Failed to save work log."
    case Remove => "Failed to delete work log."
  }

  const MissingUserIdError := "User ID is missing for work log entry. Please ensure you are logged in."
  const MissingUserIdPayload := "User ID is missing."

  // ---------------------------------------------------------------------------
  // Query semantics: filter, then order by entry_date and created_at, both descending.

  /** `row` may be listed before `other`: a later entry date first, and on the same
      entry date a later creation time first. */
  predicate ListedBefore(row: Row, other: Row)
  {
    if row.entryDate == other.entryDate then LexLeq(other.createdAt, row.createdAt)
    else LexLeq(other.entryDate, row.entryDate)
  }

  lemma ListedBeforeTotal(a: Row, b: Row)
    ensures ListedBefore(a, b) || ListedBefore(b, a)
  {
    LexLeqTotal(a.entryDate, b.entryDate);
    LexLeqTotal(a.createdAt, b.createdAt);
  }

  lemma ListedBeforeTransitive(a: Row, b: Row, c: Row)
    requires ListedBefore(a, b) && ListedBefore(b, c)
    ensures ListedBefore(a, c)
  {
    if a.entryDate == b.entryDate && b.entryDate == c.entryDate {
      LexLeqTransitive(c.createdAt, b.createdAt, a.createdAt);
    } else if a.entryDate != b.entryDate && b.entryDate != c.entryDate {
      LexLeqTransitive(c.entryDate, b.entryDate, a.entryDate);
      if a.entryDate == c.entryDate {
        LexLeqAntisymmetric(b.entryDate, c.entryDate);
      }
    }
  }

  /** Each row may be listed before the next one. */
  predicate ByRecency(s: seq<Row>)
  {
    forall i :: 0 < i < |s| ==> ListedBefore(s[i - 1], s[i])
  }

  /** In a sequence ordered by recency every row may be listed before every later one. */
  lemma {:induction false} ByRecencyAllPairs(s: seq<Row>)
    requires ByRecency(s)
    ensures forall i, j :: 0 <= i < j < |s| ==> ListedBefore(s[i], s[j])
    decreases |s|
  {
    if |s| > 1 {
      var t := s[1..];
      assert ByRecency(t) by {
        forall i | 0 < i < |t| ensures ListedBefore(t[i - 1], t[i]) {
          assert t[i - 1] == s[i] && t[i] == s[i + 1];
        }
      }
      ByRecencyAllPairs(t);
      forall i, j | 0 <= i < j < |s| ensures ListedBefore(s[i], s[j]) {
        if i > 0 {
          assert s[i] == t[i - 1] && s[j] == t[j - 1];
        } else if j > 1 {
          assert s[1] == t[0] && s[j] == t[j - 1];
          ListedBeforeTransitive(s[0], s[1], s[j]);
        }
      }
    }
  }

  /** The rows of `table` that `keep` accepts, in table order. */
  function Select(table: seq<Row>, keep: Row -> bool): (r: seq<Row>)
    ensures forall row: Row :: row in r <==> row in table && keep(row)
    ensures forall row: Row :: keep(row) ==> multiset(r)[row] == multiset(table)[row]
    decreases |table|
  {
    if table == [] then []
    else
      assert table == [table[0]] + table[1..];
      (if keep(table[0]) then [table[0]] else []) + Select(table[1..], keep)
  }

  /** Places `row` into a sequence already ordered by recency. */
  function InsertByRecency(row: Row, sorted: seq<Row>): (r: seq<Row>)
    requires ByRecency(sorted)
    ensures ByRecency(r)
    ensures multiset(r) == multiset(sorted) + multiset{row}
    ensures |r| == |sorted| + 1
    ensures r[0] == row || (|sorted| > 0 && r[0] == sorted[0])
    decreases |sorted|
  {
    if sorted == [] then [row]
    else if ListedBefore(row, sorted[0]) then [row] + sorted
    else
      ListedBeforeTotal(row, sorted[0]);
      assert sorted == [sorted[0]] + sorted[1..];
      assert ByRecency(sorted[1..]) by {
        forall i | 0 < i < |sorted[1..]| ensures ListedBefore(sorted[1..][i - 1], sorted[1..][i]) {
          assert sorted[1..][i - 1] == sorted[i] && sorted[1..][i] == sorted[i + 1];
        }
      }
      [sorted[0]] + InsertByRecency(row, sorted[1..])
  }

  /** The rows in the order `.order('entry_date', desc).order('created_at', desc)`
      returns them; rows equal on both keys keep the relative order this
      insertion gives them, one of the orders the database may use. */
  function SortByRecency(rows: seq<Row>): (r: seq<Row>)
    ensures ByRecency(r)
    ensures multiset(r) == multiset(rows)
    decreases |rows|
  {
    if rows == [] then []
    else
      assert rows == [rows[0]] + rows[1..];
      InsertByRecency(rows[0], SortByRecency(rows[1..]))
  }

  /** The rows `fetchMyWorkLogs` selects: `.eq('user_id', userId)`, newest first. */
  function MyEntriesQuery(table: seq<Row>, userId: string): seq<Row>
  {
    SortByRecency(Select(table, (row: Row) => row.userId == userId))
  }

  /** The rows `fetchPublicWorkLogs` selects: `.eq('is_public', true)`, newest first. */
  function PublicEntriesQuery(table: seq<Row>): seq<Row>
  {
    SortByRecency(Select(table, (row: Row) => row.isPublic))
  }

  /** The own-entries query returns exactly the caller's rows, each as often as it is
      stored, ordered by entry date and then creation time, latest first. */
  lemma MyEntriesQueryExact(table: seq<Row>, userId: string)
    ensures forall row: Row :: row in MyEntriesQuery(table, userId) <==> row in table && row.userId == userId
    ensures forall row: Row :: row.userId == userId ==>
              multiset(MyEntriesQuery(table, userId))[row] == multiset(table)[row]
    ensures forall i, j :: 0 <= i < j < |MyEntriesQuery(table, userId)| ==>
              ListedBefore(MyEntriesQuery(table, userId)[i], MyEntriesQuery(table, userId)[j])
  {
    var q := MyEntriesQuery(table, userId);
    var selected := Select(table, (row: Row) => row.userId == userId);
    assert multiset(q) == multiset(selected);
    forall row: Row ensures row in q <==> row in selected {
      assert row in q <==> multiset(q)[row] > 0;
      assert row in selected <==> multiset(selected)[row] > 0;
    }
    ByRecencyAllPairs(q);
  }

  /** The public query returns exactly the public rows, each as often as it is
      stored, ordered by entry date and then creation time, latest first. */
  lemma PublicEntriesQueryExact(table: seq<Row>)
    ensures forall row: Row :: row in PublicEntriesQuery(table) <==> row in table && row.isPublic
    ensures forall row: Row :: row.isPublic ==>
              multiset(PublicEntriesQuery(table))[row] == multiset(table)[row]
    ensures forall i, j :: 0 <= i < j < |PublicEntriesQuery(table)| ==>
              ListedBefore(PublicEntriesQuery(table)[i], PublicEntriesQuery(table)[j])
  {
    var q := PublicEntriesQuery(table);
    var selected := Select(table, (row: Row) => row.isPublic);
    assert multiset(q) == multiset(selected);
    forall row: Row ensures row in q <==> row in selected {
      assert row in q <==> multiset(q)[row] > 0;
      assert row in selected <==> multiset(selected)[row] > 0;
    }
    ByRecencyAllPairs(q);
  }

  // ---------------------------------------------------------------------------
  // Writes.

  /** The row an entry becomes when it is stored under `id`. */
  function StoredRow(entry: EntryData, id: string): Row
    requires entry.userId.Some?
  {
    Row(id, entry.userId.value, entry.project, entry.taskDescription, entry.hoursSpent,
        entry.status, entry.entryDate, entry.createdAt, entry.isPublic)
  }

  /** The filter `.eq('id', id).eq('user_id', userId)` that updates and deletes use. */
  predicate Matches(row: Row, id: string, userId: string)
  {
    row.id == id && row.userId == userId
  }

  /** `update(...)` under that filter: every matching row becomes `replacement`. */
  function UpdateWhere(table: seq<Row>, id: string, userId: string, replacement: Row): seq<Row>
    decreases |table|
  {
    if table == [] then []
    else [if Matches(table[0], id, userId) then replacement else table[0]]
         + UpdateWhere(table[1..], id, userId, replacement)
  }

  /** An update keeps the table's length and rewrites exactly the rows that carry
      both the given id and the given owner. */
  lemma {:induction false} UpdateWhereOnlyMatching(table: seq<Row>, id: string, userId: string, replacement: Row)
    ensures |UpdateWhere(table, id, userId, replacement)| == |table|
    ensures forall i :: 0 <= i < |table| ==>
              UpdateWhere(table, id, userId, replacement)[i]
              == if Matches(table[i], id, userId) then replacement else table[i]
    decreases |table|
  {
    if table != [] {
      UpdateWhereOnlyMatching(table[1..], id, userId, replacement);
      var r := UpdateWhere(table, id, userId, replacement);
      forall i | 0 < i < |table|
        ensures r[i] == if Matches(table[i], id, userId) then replacement else table[i]
      {
        assert r[i] == UpdateWhere(table[1..], id, userId, replacement)[i - 1];
        assert table[1..][i - 1] == table[i];
      }
    }
  }

  /** `delete()` under that filter. */
  function DeleteWhere(table: seq<Row>, id: string, userId: string): seq<Row>
  {
    Select(table, (row: Row) => !Matches(row, id, userId))
  }

  /** A delete removes every row carrying both the id and the owner, and keeps every
      other row as often as it was stored. */
  lemma DeleteWhereOnlyMatching(table: seq<Row>, id: string, userId: string)
    ensures forall row: Row :: row in DeleteWhere(table, id, userId) <==> row in table && !Matches(row, id, userId)
    ensures forall row: Row :: !Matches(row, id, userId) ==>
              multiset(DeleteWhere(table, id, userId))[row] == multiset(table)[row]
  {
  }

  /** The write `addOrUpdateWorkLog` sends to the backend. */
  datatype WriteRequest =
    | NoWrite
    | UpdateRequest(id: string, userId: string, row: Row)
    | InsertRequest(row: Row)

  /** What `addOrUpdateWorkLog` sends, how it settles, and the table afterwards. */
  datatype WriteOutcome = WriteOutcome(request: WriteRequest, result: ThunkResult<bool>, table: seq<Row>)

  /** The table after the backend applied `request`. */
  function Apply(table: seq<Row>, request: WriteRequest): seq<Row>
  {
    match request
    case NoWrite => table
    case UpdateRequest(id, userId, row) => UpdateWhere(table, id, userId, row)
    case InsertRequest(row) => table + [row]
  }

  /** The guard and branch of `addOrUpdateWorkLog`: reject without a user id, update
      the caller's row when the entry has an id, insert a row (under the id the
      database assigns, `newId`) otherwise. `reply` is the backend's answer. */
  function SaveEntry(entry: EntryData, table: seq<Row>, newId: string, reply: BackendReply): (w: WriteOutcome)
    ensures w.request.NoWrite? <==> !Truthy(entry.userId)
    ensures w.request.UpdateRequest? <==> Truthy(entry.userId) && Truthy(entry.id)
    ensures w.request.UpdateRequest? ==>
              w.request.id == entry.id.value && w.request.userId == entry.userId.value
              && w.request.row == StoredRow(entry, entry.id.value)
    ensures w.request.InsertRequest? ==> w.request.row == StoredRow(entry, newId)
    ensures !Truthy(entry.userId) ==> w.result == Rejected(Some(MissingUserIdPayload))
    ensures w.result.Fulfilled? <==> Truthy(entry.userId) && reply.Succeeded?
    ensures Truthy(entry.userId) && reply.Failed? ==> w.result == Rejected(reply.message)
    ensures w.table == if w.result.Fulfilled? then Apply(table, w.request) else table
  {
    if !Truthy(entry.userId) then
      WriteOutcome(NoWrite, Rejected(Some(MissingUserIdPayload)), table)
    else
      var request :=
        if Truthy(entry.id) then UpdateRequest(entry.id.value, entry.userId.value, StoredRow(entry, entry.id.value))
        else InsertRequest(StoredRow(entry, newId));
      match reply
      case Succeeded => WriteOutcome(request, Fulfilled(true), Apply(table, request))
      case Failed(message) => WriteOutcome(request, Rejected(message), table)
  }

  /** A successful save of an entry with an id rewrites only the caller's row with
      that id; no row of another user, and no other row of the caller, changes. */
  lemma SaveEntryUpdatesOnlyOwnRow(entry: EntryData, table: seq<Row>, newId: string)
    requires Truthy(entry.userId) && Truthy(entry.id)
    ensures |SaveEntry(entry, table, newId, Succeeded).table| == |table|
    ensures forall i :: 0 <= i < |table| ==>
              SaveEntry(entry, table, newId, Succeeded).table[i]
              == if Matches(table[i], entry.id.value, entry.userId.value)
                 then StoredRow(entry, entry.id.value) else table[i]
    ensures forall i :: 0 <= i < |table| && table[i].userId != entry.userId.value ==>
              SaveEntry(entry, table, newId, Succeeded).table[i] == table[i]
  {
    UpdateWhereOnlyMatching(table, entry.id.value, entry.userId.value, StoredRow(entry, entry.id.value));
  }

  /** A successful save of an entry without an id adds exactly one row, owned by the
      caller, and keeps every existing row. */
  lemma SaveEntryInsertsOneRow(entry: EntryData, table: seq<Row>, newId: string)
    requires Truthy(entry.userId) && !Truthy(entry.id)
    ensures SaveEntry(entry, table, newId, Succeeded).table == table + [StoredRow(entry, newId)]
    ensures multiset(SaveEntry(entry, table, newId, Succeeded).table)
            == multiset(table) + multiset{StoredRow(entry, newId)}
    ensures var added := SaveEntry(entry, table, newId, Succeeded).table[|table|];
            added.id == newId && added.userId == entry.userId.value
  {
  }

  // ---------------------------------------------------------------------------
  // The slice.

  /** The work-log slice of the store; each method is a reducer case or a thunk that
      dispatches reducer cases in the order the source does. */
  class WorkLogStore {
    var myEntries: seq<Row>
    var publicEntries: seq<Row>
    var isLoading: bool
    var error: Option<string>

    function State(): WorkLogState
      reads this
    {
      WorkLogState(myEntries, publicEntries, isLoading, error)
    }

    constructor ()
      ensures State() == InitialWorkLogState
    {
      myEntries, publicEntries, isLoading, error := [], [], false, None;
    }

    /** `setMyEntries`: replaces the own entries; loading ends and the error clears. */
    method SetMyEntries(entries: seq<Row>)
      modifies this
      ensures State() == old(State()).(myEntries := entries, isLoading := false, error := None)
    {
      myEntries := entries;
      isLoading := false;
      error := None;
    }

    /** `setPublicEntries`: replaces the public entries; loading ends and the error clears. */
    method SetPublicEntries(entries: seq<Row>)
      modifies this
      ensures State() == old(State()).(publicEntries := entries, isLoading := false, error := None)
    {
      publicEntries := entries;
      isLoading := false;
      error := None;
    }

    /** `setWorkLogLoading`. */
    method SetWorkLogLoading(loading: bool)
      modifies this
      ensures State() == old(State()).(isLoading := loading)
    {
      isLoading := loading;
    }

    /** `setWorkLogError`: stores the error as given and ends loading. */
    method SetWorkLogError(message: Option<string>)
      modifies this
      ensures State() == old(State()).(error := message, isLoading := false)
    {
      error := message;
      isLoading := false;
    }

    /** `clearWorkLogs`: back to the initial state. */
    method ClearWorkLogs()
      modifies this
      ensures State() == InitialWorkLogState
    {
      myEntries := [];
      publicEntries := [];
      isLoading := false;
      error := None;
    }

    /** The `pending` case of thunk `t`. */
    method Pending(t: Thunk)
      modifies this
      ensures State() == old(State()).(isLoading := true, error := None)
    {
      isLoading := true;
      error := None;
    }

    /** The `fulfilled` or `rejected` case of thunk `t`. */
    method Settle<T>(t: Thunk, result: ThunkResult<T>)
      modifies this
      ensures result.Fulfilled? ==> State() == old(State()).(isLoading := false, error := None)
      ensures result.Rejected? ==>
                State() == old(State()).(isLoading := false, error := Or(result.payload, Some(DefaultRejection(t))))
    {
      isLoading := false;
      match result {
      case Fulfilled(_) =>
        error := None;
      case Rejected(payload) =>
        error := if Truthy(payload) then payload else Some(DefaultRejection(t));
      }
    }

    /** `fetchMyWorkLogs`: on success the own entries become the caller's rows, newest
        first; on failure they stay. Loading ends either way. */
    method FetchMyWorkLogs(userId: string, table: seq<Row>, reply: BackendReply)
      returns (result: ThunkResult<seq<Row>>)
      modifies this
      ensures reply.Succeeded? ==>
                && result == Fulfilled(MyEntriesQuery(table, userId))
                && State() == old(State()).(myEntries := MyEntriesQuery(table, userId), isLoading := false, error := None)
      ensures reply.Failed? ==>
                && result == Rejected(reply.message)
                && State() == old(State()).(isLoading := false, error := Or(reply.message, Some(DefaultRejection(FetchMine))))
    {
      Pending(FetchMine);
      SetWorkLogLoading(true);
      match reply {
      case Succeeded =>
        var data := MyEntriesQuery(table, userId);
        SetMyEntries(data);
        result := Fulfilled(data);
      case Failed(message) =>
        SetWorkLogError(message);
        result := Rejected(message);
      }
      SetWorkLogLoading(false);
      Settle(FetchMine, result);
    }

    /** `fetchPublicWorkLogs`: on success the public entries become the public rows,
        newest first; on failure they stay. Loading ends either way. */
    method FetchPublicWorkLogs(table: seq<Row>, reply: BackendReply)
      returns (result: ThunkResult<seq<Row>>)
      modifies this
      ensures reply.Succeeded? ==>
                && result == Fulfilled(PublicEntriesQuery(table))
                && State() == old(State()).(publicEntries := PublicEntriesQuery(table), isLoading := false, error := None)
      ensures reply.Failed? ==>
                && result == Rejected(reply.message)
                && State() == old(State()).(isLoading := false, error := Or(reply.message, Some(DefaultRejection(FetchPublic))))
    {
      Pending(FetchPublic);
      SetWorkLogLoading(true);
      match reply {
      case Succeeded =>
        var data := PublicEntriesQuery(table);
        SetPublicEntries(data);
        result := Fulfilled(data);
      case Failed(message) =>
        SetWorkLogError(message);
        result := Rejected(message);
      }
      SetWorkLogLoading(false);
      Settle(FetchPublic, result);
    }

    /** `addOrUpdateWorkLog`: writes as `SaveEntry` says; the entry lists are not
        touched, loading ends, and a rejection leaves its payload (or the default)
        as the error. */
    method AddOrUpdateWorkLog(entry: EntryData, table: seq<Row>, newId: string, reply: BackendReply)
      returns (result: ThunkResult<bool>, newTable: seq<Row>)
      modifies this
      ensures result == SaveEntry(entry, table, newId, reply).result
      ensures newTable == SaveEntry(entry, table, newId, reply).table
      ensures result.Fulfilled? ==> State() == old(State()).(isLoading := false, error := None)
      ensures result.Rejected? ==>
                State() == old(State()).(isLoading := false, error := Or(result.payload, Some(DefaultRejection(Save))))
    {
      Pending(Save);
      SetWorkLogLoading(true);
      newTable := table;
      if !Truthy(entry.userId) {
        SetWorkLogError(Some(MissingUserIdError));
        result := Rejected(Some(MissingUserIdPayload));
      } else {
        var request;
        if Truthy(entry.id) {
          request := UpdateRequest(entry.id.value, entry.userId.value, StoredRow(entry, entry.id.value));
        } else {
          request := InsertRequest(StoredRow(entry, newId));
        }
        match reply {
        case Succeeded =>
          newTable := Apply(table, request);
          result := Fulfilled(true);
        case Failed(message) =>
          SetWorkLogError(message);
          result := Rejected(message);
        }
      }
      SetWorkLogLoading(false);
      Settle(Save, result);
    }

    /** `deleteWorkLog`: on success removes the rows carrying both `id` and `userId`;
        the entry lists are not touched and loading ends. */
    method DeleteWorkLog(id: string, userId: string, table: seq<Row>, reply: BackendReply)
      returns (result: ThunkResult<bool>, newTable: seq<Row>)
      modifies this
      ensures reply.Succeeded? ==>
                && result == Fulfilled(true) && newTable == DeleteWhere(table, id, userId)
                && State() == old(State()).(isLoading := false, error := None)
      ensures reply.Failed? ==>
                && result == Rejected(reply.message) && newTable == table
                && State() == old(State()).(isLoading := false, error := Or(reply.message, Some(DefaultRejection(Remove))))
    {
      Pending(Remove);
      SetWorkLogLoading(true);
      match reply {
      case Succeeded =>
        newTable := DeleteWhere(table, id, userId);
        result := Fulfilled(true);
      case Failed(message) =>
        SetWorkLogError(message);
        newTable := table;
        result := Rejected(message);
      }
      SetWorkLogLoading(false);
      Settle(Remove, result);
    }
  }
}
