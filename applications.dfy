/** The job-application store (src/stores/applicationStore.ts) with the record
    shapes of src/types/application.ts. Each action first applies its change to
    the store (the optimistic update), then awaits the API; the API's answer is
    a parameter, and on failure the action puts back the snapshot it took. */
module Applications {
  import opened Wrappers

  datatype Status = New | Interested | Interviewed | Pooling | Offered | Accepted | Rejected

  /** `StatusCounts`: a counter per status. A status missing from the map reads as 0,
      as the store's `counts[s] || 0` does. */
  type StatusCounts = map<Status, int>

  datatype HistoryEntry = HistoryEntry(status: Status, changedAt: string, notes: Option<string>)

  /** The applicant's own data, which no store action touches. */
  datatype Applicant = Applicant(careerId: string, firstName: string, lastName: string,
                                 email: string, contactNumber: string, coverLetter: Option<string>)

  datatype Attributes = Attributes(
    applicant: Applicant,
    notes: Option<string>,
    status: Status,
    statusHistory: Option<seq<HistoryEntry>>,   // None: the server sent no history
    createdAt: string,
    updatedAt: string)

  datatype JobApplication = JobApplication(id: string, attributes: Attributes)

  datatype Meta = Meta(total: int, page: int, limit: int, pages: int,
                       statusCounts: Option<StatusCounts>)

  /** The list filter: `"all"` or one status. */
  datatype Filter = All | Only(status: Status)

  /** What `getApplications` is asked for. */
  datatype Query = Query(page: int, limit: int, status: Option<Status>)

  /** The outcome of an update or delete call; a failure may carry the server's message. */
  datatype ApiResult = Ok | Failed(serverMessage: Option<string>)

  /** The outcome of `getApplications`. */
  datatype FetchResult = Loaded(data: seq<JobApplication>, meta: Meta) | FetchFailed(serverMessage: Option<string>)

  // ---- counters ----

  function Count(counts: StatusCounts, s: Status): int {
    if s in counts then counts[s] else 0
  }

  function Max0(x: int): int { if x < 0 then 0 else x }

  /** `{...counts, [from]: max(0, c[from] - 1), [to]: c[to] + 1}`: both values are
      computed from the counts before the change, and the later key wins. */
  function MoveCount(counts: StatusCounts, from: Status, to: Status): StatusCounts {
    counts[from := Max0(Count(counts, from) - 1)][to := Count(counts, to) + 1]
  }

  /** `{...counts, [s]: max(0, c[s] - 1)}`. */
  function DropCount(counts: StatusCounts, s: Status): StatusCounts {
    counts[s := Max0(Count(counts, s) - 1)]
  }

  // ---- list transforms ----

  /** `applications.find(app => app.id === id)`. */
  function FindById(apps: seq<JobApplication>, id: string): (r: Option<JobApplication>)
    ensures r.None? <==> forall i :: 0 <= i < |apps| ==> apps[i].id != id
    ensures r.Some? ==> r.value in apps && r.value.id == id
  {
    if |apps| == 0 then None
    else if apps[0].id == id then Some(apps[0])
    else FindById(apps[1..], id)
  }

  /** `find` returns the FIRST record carrying the id. */
  lemma {:induction false} FindByIdFirst(apps: seq<JobApplication>, id: string, k: nat)
    requires k < |apps| && apps[k].id == id
    requires forall i :: 0 <= i < k ==> apps[i].id != id
    ensures FindById(apps, id) == Some(apps[k])
  {
    if k > 0 {
      FindByIdFirst(apps[1..], id, k - 1);
    }
  }

  /** One record after a status change: the new status, and the history (empty
      when missing) with one entry appended. */
  function WithStatus(app: JobApplication, status: Status, notes: Option<string>, changedAt: string): JobApplication {
    var history := app.attributes.statusHistory.GetOr([]);
    app.(attributes := app.attributes.(status := status,
                                       statusHistory := Some(history + [HistoryEntry(status, changedAt, notes)])))
  }

  /** The `applications.map(...)` of `updateApplicationStatus`. */
  function StatusUpdated(apps: seq<JobApplication>, id: string, status: Status,
                         notes: Option<string>, changedAt: string): seq<JobApplication>
  {
    if |apps| == 0 then []
    else [if apps[0].id == id then WithStatus(apps[0], status, notes, changedAt) else apps[0]]
         + StatusUpdated(apps[1..], id, status, notes, changedAt)
  }

  /** The `applications.map(...)` of `updateApplicationNotes`. */
  function NotesUpdated(apps: seq<JobApplication>, id: string, notes: string): seq<JobApplication>
  {
    if |apps| == 0 then []
    else [if apps[0].id == id then apps[0].(attributes := apps[0].attributes.(notes := Some(notes))) else apps[0]]
         + NotesUpdated(apps[1..], id, notes)
  }

  /** `applications.filter(app => app.id !== id)`. */
  function Removed(apps: seq<JobApplication>, id: string): seq<JobApplication>
  {
    if |apps| == 0 then []
    else (if apps[0].id == id then [] else [apps[0]]) + Removed(apps[1..], id)
  }

  /** The optimistic `meta` of `updateApplicationStatus`. */
  function MetaAfterStatusChange(apps: seq<JobApplication>, meta: Option<Meta>, id: string, status: Status): Option<Meta> {
    match meta
    case None => None
    case Some(m) =>
      var found := FindById(apps, id);
      var counts := if found.Some? && m.statusCounts.Some?
                    then Some(MoveCount(m.statusCounts.value, found.value.attributes.status, status))
                    else m.statusCounts;
      Some(m.(statusCounts := counts))
  }

  /** The optimistic `meta` of `deleteApplication`. */
  function MetaAfterDelete(apps: seq<JobApplication>, meta: Option<Meta>, id: string): Option<Meta> {
    match meta
    case None => None
    case Some(m) =>
      var found := FindById(apps, id);
      var counts := if found.Some? && m.statusCounts.Some?
                    then Some(DropCount(m.statusCounts.value, found.value.attributes.status))
                    else m.statusCounts;
      Some(m.(total := m.total - 1, statusCounts := counts))
  }

  /** `statusFilter === "all" ? undefined : statusFilter`. */
  function StatusParam(f: Filter): (r: Option<Status>)
    ensures r.None? <==> f.All?
    ensures f.Only? ==> r == Some(f.status)
  {
    match f
    case All => None
    case Only(s) => Some(s)
  }

  /** `err.response?.data?.message || fallback`. */
  function ErrorText(serverMessage: Option<string>, fallback: string): string {
    OrElse(serverMessage, fallback)
  }

  // ---- properties of the transforms ----

  /** Number of records carrying `id`. */
  function CountId(apps: seq<JobApplication>, id: string): nat {
    if |apps| == 0 then 0 else (if apps[0].id == id then 1 else 0) + CountId(apps[1..], id)
  }

  /** Number of records in status `s`. */
  function NumWithStatus(apps: seq<JobApplication>, s: Status): nat {
    if |apps| == 0 then 0 else (if apps[0].attributes.status == s then 1 else 0) + NumWithStatus(apps[1..], s)
  }

  /** The counters agree with the records held: the whole data set is loaded as
      one page. */
  ghost predicate Consistent(apps: seq<JobApplication>, counts: StatusCounts) {
    forall s: Status :: Count(counts, s) == NumWithStatus(apps, s)
  }

  /** The server-wide counters cover the loaded page: every status has at least
      as many records in the data set as on the page. This holds for any page. */
  ghost predicate Covers(apps: seq<JobApplication>, counts: StatusCounts) {
    forall s: Status :: Count(counts, s) >= NumWithStatus(apps, s)
  }

  /** Records in status `s` that the counters count but the page does not hold. */
  function OffPage(apps: seq<JobApplication>, counts: StatusCounts, s: Status): int {
    Count(counts, s) - NumWithStatus(apps, s)
  }

  /** A status change keeps the length, the order and every id; it rewrites exactly
      the records carrying `id`, giving each the new status and one more history
      entry at the end (after an empty history if it had none), and leaves
      every other field and every other record as it was. */
  lemma {:induction false} StatusUpdatedSpec(apps: seq<JobApplication>, id: string, status: Status,
                                             notes: Option<string>, changedAt: string)
    ensures var r := StatusUpdated(apps, id, status, notes, changedAt);
      && |r| == |apps|
      && (forall i :: 0 <= i < |apps| ==> r[i].id == apps[i].id)
      && (forall i :: 0 <= i < |apps| && apps[i].id != id ==> r[i] == apps[i])
      && (forall i :: 0 <= i < |apps| && apps[i].id == id ==>
            && r[i].attributes.status == status
            && r[i].attributes.statusHistory ==
                 Some(apps[i].attributes.statusHistory.GetOr([]) + [HistoryEntry(status, changedAt, notes)])
            && r[i].attributes.applicant == apps[i].attributes.applicant
            && r[i].attributes.notes == apps[i].attributes.notes
            && r[i].attributes.createdAt == apps[i].attributes.createdAt
            && r[i].attributes.updatedAt == apps[i].attributes.updatedAt)
  {
    if |apps| > 0 {
      StatusUpdatedSpec(apps[1..], id, status, notes, changedAt);
      var r := StatusUpdated(apps, id, status, notes, changedAt);
      assert r[1..] == StatusUpdated(apps[1..], id, status, notes, changedAt);
    }
  }

  /** A notes edit keeps length, order and ids, and changes only the notes of the
      records carrying `id`. */
  lemma {:induction false} NotesUpdatedSpec(apps: seq<JobApplication>, id: string, notes: string)
    ensures var r := NotesUpdated(apps, id, notes);
      && |r| == |apps|
      && (forall i :: 0 <= i < |apps| && apps[i].id != id ==> r[i] == apps[i])
      && (forall i :: 0 <= i < |apps| && apps[i].id == id ==>
            r[i] == apps[i].(attributes := apps[i].attributes.(notes := Some(notes))))
  {
    if |apps| > 0 {
      NotesUpdatedSpec(apps[1..], id, notes);
      var r := NotesUpdated(apps, id, notes);
      assert r[1..] == NotesUpdated(apps[1..], id, notes);
    }
  }

  /** Deleting keeps exactly the records whose id differs, ... */
  lemma {:induction false} RemovedMembers(apps: seq<JobApplication>, id: string)
    ensures forall a :: a in Removed(apps, id) <==> a in apps && a.id != id
    ensures |Removed(apps, id)| == |apps| - CountId(apps, id)
  {
    if |apps| > 0 {
      RemovedMembers(apps[1..], id);
      assert apps == [apps[0]] + apps[1..];
    }
  }

  /** ... in their original order ... */
  lemma {:induction false} RemovedConcat(a: seq<JobApplication>, b: seq<JobApplication>, id: string)
    ensures Removed(a + b, id) == Removed(a, id) + Removed(b, id)
  {
    if |a| > 0 {
      assert (a + b)[1..] == a[1..] + b;
      RemovedConcat(a[1..], b, id);
    } else {
      assert a + b == b;
    }
  }

  /** ... and a list without the id is left as it is. */
  lemma {:induction false} RemovedAbsent(apps: seq<JobApplication>, id: string)
    requires CountId(apps, id) == 0
    ensures Removed(apps, id) == apps
  {
    if |apps| > 0 {
      RemovedAbsent(apps[1..], id);
      assert apps == [apps[0]] + apps[1..];
    }
  }

  lemma {:induction false} StatusUpdatedAbsent(apps: seq<JobApplication>, id: string, status: Status,
                                               notes: Option<string>, changedAt: string)
    requires CountId(apps, id) == 0
    ensures StatusUpdated(apps, id, status, notes, changedAt) == apps
  {
    if |apps| > 0 {
      StatusUpdatedAbsent(apps[1..], id, status, notes, changedAt);
      assert apps == [apps[0]] + apps[1..];
    }
  }

  /** The counter step: the old status goes to max(0, c - 1), the new one to c + 1,
      every other counter stays; when the two statuses are the same the later key
      wins and that counter rises by one. */
  lemma MoveCountSpec(counts: StatusCounts, from: Status, to: Status)
    ensures Count(MoveCount(counts, from, to), to) == Count(counts, to) + 1
    ensures from != to ==> Count(MoveCount(counts, from, to), from) == Max0(Count(counts, from) - 1)
    ensures forall s :: s != from && s != to ==> Count(MoveCount(counts, from, to), s) == Count(counts, s)
  {
  }

  /** The optimistic meta of a status change: a null meta stays null; the counters
      move only when the id is present and the counters exist; total, page, limit
      and pages never change. */
  lemma MetaAfterStatusChangeSpec(apps: seq<JobApplication>, meta: Option<Meta>, id: string, status: Status)
    ensures var r := MetaAfterStatusChange(apps, meta, id, status);
      && (meta.None? <==> r.None?)
      && (meta.Some? ==>
            && r.value.(statusCounts := meta.value.statusCounts) == meta.value
            && ((FindById(apps, id).None? || meta.value.statusCounts.None?) ==>
                  r.value.statusCounts == meta.value.statusCounts)
            && ((FindById(apps, id).Some? && meta.value.statusCounts.Some?) ==>
                  r.value.statusCounts ==
                    Some(MoveCount(meta.value.statusCounts.value, FindById(apps, id).value.attributes.status, status))))
  {
  }

  /** The optimistic meta of a delete: a null meta stays null; `total` drops by one
      even when no record carries the id; the deleted record's counter drops,
      clamped at 0. */
  lemma MetaAfterDeleteSpec(apps: seq<JobApplication>, meta: Option<Meta>, id: string)
    ensures var r := MetaAfterDelete(apps, meta, id);
      && (meta.None? <==> r.None?)
      && (meta.Some? ==>
            && r.value.total == meta.value.total - 1
            && r.value.(total := meta.value.total, statusCounts := meta.value.statusCounts) == meta.value
            && ((FindById(apps, id).None? || meta.value.statusCounts.None?) ==>
                  r.value.statusCounts == meta.value.statusCounts)
            && ((FindById(apps, id).Some? && meta.value.statusCounts.Some?) ==>
                  var st := FindById(apps, id).value.attributes.status;
                  var c := meta.value.statusCounts.value;
                  r.value.statusCounts.Some? &&
                  Count(r.value.statusCounts.value, st) == Max0(Count(c, st) - 1) &&
                  forall s :: s != st ==> Count(r.value.statusCounts.value, s) == Count(c, s)))
  {
  }

  lemma {:induction false} CountIdZero(apps: seq<JobApplication>, id: string)
    ensures CountId(apps, id) == 0 <==> forall i :: 0 <= i < |apps| ==> apps[i].id != id
  {
    if |apps| > 0 {
      CountIdZero(apps[1..], id);
      assert forall i :: 1 <= i < |apps| ==> apps[i] == apps[1..][i - 1];
    }
  }

  /** How a status change on a unique id moves the per-status tallies of the list. */
  lemma {:induction false} NumAfterStatusUpdate(apps: seq<JobApplication>, id: string, status: Status,
                                                notes: Option<string>, changedAt: string, s: Status)
    requires CountId(apps, id) == 1
    ensures FindById(apps, id).Some?
    ensures var old_ := FindById(apps, id).value.attributes.status;
      NumWithStatus(StatusUpdated(apps, id, status, notes, changedAt), s) ==
        NumWithStatus(apps, s) - (if old_ == s then 1 else 0) + (if status == s then 1 else 0)
  {
    CountIdZero(apps, id);
    var rest := apps[1..];
    var head := if apps[0].id == id then WithStatus(apps[0], status, notes, changedAt) else apps[0];
    var tail := StatusUpdated(rest, id, status, notes, changedAt);
    assert StatusUpdated(apps, id, status, notes, changedAt) == [head] + tail;
    assert ([head] + tail)[1..] == tail;
    assert NumWithStatus([head] + tail, s) == (if head.attributes.status == s then 1 else 0) + NumWithStatus(tail, s);
    if apps[0].id == id {
      StatusUpdatedAbsent(rest, id, status, notes, changedAt);
    } else {
      NumAfterStatusUpdate(rest, id, status, notes, changedAt, s);
    }
  }

  /** On any page whose records the counters cover, a status change of a unique
      id to a DIFFERENT status keeps, for every status, the number of records
      counted but not on the page (the clamp at 0 is never hit), and the
      counters still cover the page. */
  lemma StatusChangeKeepsOffPageCounts(apps: seq<JobApplication>, counts: StatusCounts, id: string,
                                       status: Status, notes: Option<string>, changedAt: string)
    requires Covers(apps, counts) && CountId(apps, id) == 1
    requires FindById(apps, id).Some? && FindById(apps, id).value.attributes.status != status
    ensures var moved := MoveCount(counts, FindById(apps, id).value.attributes.status, status);
      var updated := StatusUpdated(apps, id, status, notes, changedAt);
      Covers(updated, moved) && forall s: Status :: OffPage(updated, moved, s) == OffPage(apps, counts, s)
  {
    var from := FindById(apps, id).value.attributes.status;
    var moved := MoveCount(counts, from, status);
    var updated := StatusUpdated(apps, id, status, notes, changedAt);
    MoveCountSpec(counts, from, status);
    forall s: Status
      ensures Count(moved, s) - NumWithStatus(updated, s) == Count(counts, s) - NumWithStatus(apps, s)
    {
      NumAfterStatusUpdate(apps, id, status, notes, changedAt, s);
      if s == from {
        NumPositive(apps, id);
        assert Count(counts, s) >= 1;
        assert Count(moved, s) == Count(counts, s) - 1;
      } else if s == status {
        assert Count(moved, s) == Count(counts, s) + 1;
      } else {
        assert Count(moved, s) == Count(counts, s);
      }
    }
  }

  /** When the whole data set is the page, the counters keep agreeing with it
      after a status change to a different status. */
  lemma StatusChangeKeepsCountsConsistent(apps: seq<JobApplication>, counts: StatusCounts, id: string,
                                          status: Status, notes: Option<string>, changedAt: string)
    requires Consistent(apps, counts) && CountId(apps, id) == 1
    requires FindById(apps, id).Some? && FindById(apps, id).value.attributes.status != status
    ensures Consistent(StatusUpdated(apps, id, status, notes, changedAt),
                       MoveCount(counts, FindById(apps, id).value.attributes.status, status))
  {
    StatusChangeKeepsOffPageCounts(apps, counts, id, status, notes, changedAt);
    var moved := MoveCount(counts, FindById(apps, id).value.attributes.status, status);
    var updated := StatusUpdated(apps, id, status, notes, changedAt);
    forall s: Status ensures Count(moved, s) == NumWithStatus(updated, s) {
      assert OffPage(updated, moved, s) == OffPage(apps, counts, s);
    }
  }

  /** The record `find` returns is counted under its status. */
  lemma {:induction false} NumPositive(apps: seq<JobApplication>, id: string)
    requires FindById(apps, id).Some?
    ensures NumWithStatus(apps, FindById(apps, id).value.attributes.status) >= 1
  {
    if apps[0].id != id {
      NumPositive(apps[1..], id);
    }
  }

  /** Re-applying the status a record already has raises its counter by one while
      the page's tally stays the same, so on any page one record too many is
      counted off the page (and agreeing counters stop agreeing). */
  lemma SameStatusOvercounts(apps: seq<JobApplication>, counts: StatusCounts, id: string,
                             notes: Option<string>, changedAt: string)
    requires CountId(apps, id) == 1
    ensures FindById(apps, id).Some?
    ensures var st := FindById(apps, id).value.attributes.status;
      && NumWithStatus(StatusUpdated(apps, id, st, notes, changedAt), st) == NumWithStatus(apps, st)
      && Count(MoveCount(counts, st, st), st) == Count(counts, st) + 1
      && OffPage(StatusUpdated(apps, id, st, notes, changedAt), MoveCount(counts, st, st), st) ==
           OffPage(apps, counts, st) + 1
  {
    CountIdZero(apps, id);
    var st := FindById(apps, id).value.attributes.status;
    NumAfterStatusUpdate(apps, id, st, notes, changedAt, st);
  }

  /** How deleting a unique id changes the tallies. */
  lemma {:induction false} NumAfterRemove(apps: seq<JobApplication>, id: string, s: Status)
    requires CountId(apps, id) == 1
    ensures FindById(apps, id).Some?
    ensures NumWithStatus(Removed(apps, id), s) ==
              NumWithStatus(apps, s) - (if FindById(apps, id).value.attributes.status == s then 1 else 0)
  {
    CountIdZero(apps, id);
    if apps[0].id == id {
      RemovedAbsent(apps[1..], id);
      assert Removed(apps, id) == Removed(apps[1..], id);
    } else {
      NumAfterRemove(apps[1..], id, s);
    }
  }

  /** On any page whose records the counters cover, deleting a unique id keeps,
      for every status, the number of records counted but not on the page, and
      keeps `total` minus the page length; the counters still cover the page. */
  lemma DeleteKeepsOffPageCounts(apps: seq<JobApplication>, m: Meta, id: string)
    requires m.statusCounts.Some? && Covers(apps, m.statusCounts.value) && CountId(apps, id) == 1
    ensures var r := MetaAfterDelete(apps, Some(m), id).value;
      && r.statusCounts.Some? && Covers(Removed(apps, id), r.statusCounts.value)
      && (forall s: Status :: OffPage(Removed(apps, id), r.statusCounts.value, s) == OffPage(apps, m.statusCounts.value, s))
      && r.total - |Removed(apps, id)| == m.total - |apps|
  {
    CountIdZero(apps, id);
    RemovedMembers(apps, id);
    var st := FindById(apps, id).value.attributes.status;
    var c := m.statusCounts.value;
    var removed := Removed(apps, id);
    forall s: Status
      ensures Count(DropCount(c, st), s) - NumWithStatus(removed, s) == Count(c, s) - NumWithStatus(apps, s)
    {
      NumAfterRemove(apps, id, s);
      if s == st {
        NumPositive(apps, id);
        assert Count(c, s) >= 1;
      }
    }
  }

  /** When the whole data set is the page, a delete of a unique id keeps the
      counters and the total in agreement with it. */
  lemma DeleteKeepsCountsConsistent(apps: seq<JobApplication>, m: Meta, id: string)
    requires m.statusCounts.Some? && Consistent(apps, m.statusCounts.value)
    requires m.total == |apps| && CountId(apps, id) == 1
    ensures var r := MetaAfterDelete(apps, Some(m), id).value;
      r.statusCounts.Some? && Consistent(Removed(apps, id), r.statusCounts.value) &&
      r.total == |Removed(apps, id)|
  {
    DeleteKeepsOffPageCounts(apps, m, id);
    var r := MetaAfterDelete(apps, Some(m), id).value;
    forall s: Status ensures Count(r.statusCounts.value, s) == NumWithStatus(Removed(apps, id), s) {
      assert OffPage(Removed(apps, id), r.statusCounts.value, s) == OffPage(apps, m.statusCounts.value, s);
    }
  }

  /** Deleting an id that is not in the list still lowers `total`. */
  lemma DeleteMissingStillDecrements(apps: seq<JobApplication>, m: Meta, id: string)
    requires CountId(apps, id) == 0
    ensures Removed(apps, id) == apps
    ensures MetaAfterDelete(apps, Some(m), id) == Some(m.(total := m.total - 1))
  {
    RemovedAbsent(apps, id);
    CountIdZero(apps, id);
  }

  class ApplicationStore {
    var applications: seq<JobApplication>
    var meta: Option<Meta>
    var loading: bool
    var error: Option<string>
    var statusFilter: Filter

    /** The store's initial state. */
    constructor ()
      ensures applications == [] && meta == None && !loading && error == None && statusFilter == All
    {
      applications, meta, loading, error, statusFilter := [], None, false, None, All;
    }

    /** `fetchApplications(page)`: asks for 20 records of the page (1 when left out)
        under the current filter, then stores the answer or the error. */
    method FetchApplications(page: Option<int>, response: FetchResult) returns (query: Query)
      modifies this
      ensures query == Query(page.GetOr(1), 20, StatusParam(statusFilter))
      ensures statusFilter == old(statusFilter) && !loading
      ensures response.Loaded? ==>
        applications == response.data && meta == Some(response.meta) && error == None
      ensures response.FetchFailed? ==>
        applications == old(applications) && meta == old(meta) &&
        error == Some(ErrorText(response.serverMessage, "Failed to load applications"))
    {
      loading, error := true, None;
      query := Query(page.GetOr(1), 20, StatusParam(statusFilter));
      match response
      case Loaded(data, m) =>
        applications, meta, loading := data, Some(m), false;
      case FetchFailed(msg) =>
        error, loading := Some(ErrorText(msg, "Failed to load applications")), false;
    }

    /** `setStatusFilter(status)`: stores the filter and reloads page 1. */
    method SetStatusFilter(status: Filter, response: FetchResult) returns (query: Query)
      modifies this
      ensures statusFilter == status
      ensures query == Query(1, 20, StatusParam(status))
      ensures !loading
      ensures response.Loaded? ==>
        applications == response.data && meta == Some(response.meta) && error == None
      ensures response.FetchFailed? ==>
        applications == old(applications) && meta == old(meta) &&
        error == Some(ErrorText(response.serverMessage, "Failed to load applications"))
    {
      statusFilter := status;
      query := FetchApplications(Some(1), response);
    }

    /** `updateApplicationStatus(id, status, notes)`; `changedAt` is the clock reading
        the source takes with `new Date().toISOString()`. */
    method UpdateApplicationStatus(id: string, status: Status, notes: Option<string>,
                                   changedAt: string, result: ApiResult)
      modifies this
      ensures result.Ok? ==>
        applications == StatusUpdated(old(applications), id, status, notes, changedAt) &&
        meta == MetaAfterStatusChange(old(applications), old(meta), id, status) &&
        error == old(error)
      ensures result.Failed? ==>
        applications == old(applications) && meta == old(meta) &&
        error == Some(ErrorText(result.serverMessage, "Failed to update status"))
      ensures loading == old(loading) && statusFilter == old(statusFilter)
    {
      var snapshotApps, snapshotMeta := applications, meta;
      applications := StatusUpdated(snapshotApps, id, status, notes, changedAt);
      meta := MetaAfterStatusChange(snapshotApps, snapshotMeta, id, status);
      if result.Failed? {
        applications, meta := snapshotApps, snapshotMeta;
        error := Some(ErrorText(result.serverMessage, "Failed to update status"));
      }
    }

    /** `updateApplicationNotes(id, notes)`. */
    method UpdateApplicationNotes(id: string, notes: string, result: ApiResult)
      modifies this
      ensures result.Ok? ==> applications == NotesUpdated(old(applications), id, notes) && error == old(error)
      ensures result.Failed? ==>
        applications == old(applications) &&
        error == Some(ErrorText(result.serverMessage, "Failed to update notes"))
      ensures meta == old(meta) && loading == old(loading) && statusFilter == old(statusFilter)
    {
      var snapshotApps := applications;
      applications := NotesUpdated(snapshotApps, id, notes);
      if result.Failed? {
        applications := snapshotApps;
        error := Some(ErrorText(result.serverMessage, "Failed to update notes"));
      }
    }

    /** `deleteApplication(id)`. */
    method DeleteApplication(id: string, result: ApiResult)
      modifies this
      ensures result.Ok? ==>
        applications == Removed(old(applications), id) &&
        meta == MetaAfterDelete(old(applications), old(meta), id) &&
        error == old(error)
      ensures result.Failed? ==>
        applications == old(applications) && meta == old(meta) &&
        error == Some(ErrorText(result.serverMessage, "Failed to delete application"))
      ensures loading == old(loading) && statusFilter == old(statusFilter)
    {
      var snapshotApps, snapshotMeta := applications, meta;
      applications := Removed(snapshotApps, id);
      meta := MetaAfterDelete(snapshotApps, snapshotMeta, id);
      if result.Failed? {
        applications, meta := snapshotApps, snapshotMeta;
        error := Some(ErrorText(result.serverMessage, "Failed to delete application"));
      }
    }

    /** `clearError()`. */
    method ClearError()
      modifies this
      ensures error == None
      ensures applications == old(applications) && meta == old(meta) &&
              loading == old(loading) && statusFilter == old(statusFilter)
    {
      error := None;
    }
  }
}
