/** Listing jobs newest first, one page at a time. */
module Pagination {
  import opened Model
  import opened Ordering

  /** The sort key of a listing, which is also its cursor. */
  datatype ListKey = ListKey(createdAt: Time, id: Uuid)

  predicate Newer(a: ListKey, b: ListKey) {
    b.createdAt < a.createdAt || (b.createdAt == a.createdAt && b.id < a.id)
  }

  lemma NewerIsStrictTotal()
    ensures StrictTotal(Newer)
  {
  }

  /** One row of a listing. */
  datatype JobListItem = JobListItem(
    id: Uuid,
    key: Option<string>,
    queue: string,
    jobType: string,
    status: Status,
    runAt: Time,
    deadlineAt: Option<Time>,
    timeoutSeconds: Option<int>,
    recurringSeconds: Option<int>,
    priority: int,
    maxAttempts: int,
    dlqReason: Option<string>,
    createdAt: Time,
    updatedAt: Time)

  function ItemOf(j: Job): JobListItem {
    JobListItem(j.id, j.key, j.queue, j.jobType, j.status, j.runAt, j.deadlineAt, j.timeoutSeconds, j.recurringSeconds,
                j.priority, j.maxAttempts, j.dlqReason, j.createdAt, j.updatedAt)
  }

  predicate Matches(j: Job, queue: Option<string>, status: Option<Status>) {
    (queue.Some? ==> j.queue == queue.value) && (status.Some? ==> j.status == status.value)
  }

  /** The cursor takes effect only when both halves are given. */
  predicate PastCursor(k: ListKey, createdAt: Option<Time>, id: Option<Uuid>) {
    createdAt.Some? && id.Some? ==> Newer(ListKey(createdAt.value, id.value), k)
  }

  function KeysPast(jobs: map<Uuid, Job>, queue: Option<string>, status: Option<Status>, createdAt: Option<Time>,
                    id: Option<Uuid>): set<ListKey> {
    set j | j in jobs && Matches(jobs[j], queue, status) && PastCursor(ListKey(jobs[j].createdAt, j), createdAt, id) ::
      ListKey(jobs[j].createdAt, j)
  }

  /** The rows for the keys, in order. */
  ghost predicate RowsFor(jobs: map<Uuid, Job>, keys: seq<ListKey>, items: seq<JobListItem>) {
    |items| == |keys| && forall i | 0 <= i < |keys| :: keys[i].id in jobs && items[i] == ItemOf(jobs[keys[i].id])
  }

  /** All matching jobs, newest first. */
  ghost function Everything(jobs: map<Uuid, Job>, queue: Option<string>, status: Option<Status>): seq<ListKey> {
    NewerIsStrictTotal();
    SortSet(Newer, KeysPast(jobs, queue, status, None, None))
  }

  /** Created later, or at the same time with a greater id. */
  predicate ListedFirst(createdAt: Time, id: Uuid, otherCreatedAt: Time, otherId: Uuid) {
    createdAt > otherCreatedAt || (createdAt == otherCreatedAt && id > otherId)
  }

  /** The job answers the filters and, if there is a whole cursor, lies beyond it. */
  predicate Wanted(j: Job, queue: Option<string>, status: Option<Status>, createdAt: Option<Time>, id: Option<Uuid>) {
    && (queue == None || queue == Some(j.queue))
    && (status == None || status == Some(j.status))
    && (createdAt == None || id == None || ListedFirst(createdAt.value, id.value, j.createdAt, j.id))
  }

  /** The item says what the record says. */
  predicate Describes(item: JobListItem, j: Job) {
    item == JobListItem(
      id := j.id, key := j.key, queue := j.queue, jobType := j.jobType, status := j.status, runAt := j.runAt,
      deadlineAt := j.deadlineAt, timeoutSeconds := j.timeoutSeconds, recurringSeconds := j.recurringSeconds,
      priority := j.priority, maxAttempts := j.maxAttempts, dlqReason := j.dlqReason, createdAt := j.createdAt,
      updatedAt := j.updatedAt)
  }

  ghost function ItemIds(items: seq<JobListItem>): set<Uuid> {
    set item | item in items :: item.id
  }

  /** Wanted jobs only, newest first, and none left out that is newer than one listed. */
  ghost predicate NewestFirst(jobs: map<Uuid, Job>, queue: Option<string>, status: Option<Status>,
                              createdAt: Option<Time>, id: Option<Uuid>, items: seq<JobListItem>) {
    && (forall i | 0 <= i < |items| ::
          items[i].id in jobs && Describes(items[i], jobs[items[i].id]) &&
          Wanted(jobs[items[i].id], queue, status, createdAt, id))
    && (forall i, k | 0 <= i < k < |items| ::
          ListedFirst(items[i].createdAt, items[i].id, items[k].createdAt, items[k].id))
    && (forall j, i | j in jobs && Wanted(jobs[j], queue, status, createdAt, id) && j !in ItemIds(items) &&
                      0 <= i < |items| ::
          ListedFirst(items[i].createdAt, items[i].id, jobs[j].createdAt, j))
  }

  ghost predicate AllListed(jobs: map<Uuid, Job>, queue: Option<string>, status: Option<Status>,
                            createdAt: Option<Time>, id: Option<Uuid>, items: seq<JobListItem>) {
    forall j | j in jobs && Wanted(jobs[j], queue, status, createdAt, id) :: j in ItemIds(items)
  }

  lemma NewerIsListedFirst(a: ListKey, b: ListKey)
    ensures Newer(a, b) <==> ListedFirst(a.createdAt, a.id, b.createdAt, b.id)
  {
  }

  lemma WantedKey(jobs: map<Uuid, Job>, queue: Option<string>, status: Option<Status>, createdAt: Option<Time>,
                  id: Option<Uuid>, k: ListKey)
    requires Keyed(jobs)
    ensures k in KeysPast(jobs, queue, status, createdAt, id) <==>
      k.id in jobs && k.createdAt == jobs[k.id].createdAt && Wanted(jobs[k.id], queue, status, createdAt, id)
  {
  }

  /** The rows for the first keys of the sorted wanted ones. */
  lemma RowsAreNewestFirst(jobs: map<Uuid, Job>, queue: Option<string>, status: Option<Status>, createdAt: Option<Time>,
                           id: Option<Uuid>, keys: seq<ListKey>, page: seq<ListKey>, items: seq<JobListItem>)
    requires Keyed(jobs) && StrictTotal(Newer) && keys == SortSet(Newer, KeysPast(jobs, queue, status, createdAt, id))
    requires page <= keys && RowsFor(jobs, page, items)
    ensures NewestFirst(jobs, queue, status, createdAt, id, items)
    ensures |page| == |keys| ==> AllListed(jobs, queue, status, createdAt, id, items)
  {
    hide StrictTotal, SortSet, KeysPast, Wanted, ListedFirst, Newer, Describes, ItemOf;
    RowsMatch(jobs, queue, status, createdAt, id, keys, page, items);
    hide RowsFor;
    forall i, k | 0 <= i < k < |keys|
      ensures ListedFirst(keys[i].createdAt, keys[i].id, keys[k].createdAt, keys[k].id)
    {
      NewerIsListedFirst(keys[i], keys[k]);
    }
    hide Ascending;
    forall j | j in jobs && Wanted(jobs[j], queue, status, createdAt, id) && j !in ItemIds(items)
      ensures exists k :: |page| <= k < |keys| && keys[k] == ListKey(jobs[j].createdAt, j)
    {
      OffPage(jobs, queue, status, createdAt, id, keys, page, items, j);
    }
  }

  lemma RowsMatch(jobs: map<Uuid, Job>, queue: Option<string>, status: Option<Status>, createdAt: Option<Time>,
                  id: Option<Uuid>, keys: seq<ListKey>, page: seq<ListKey>, items: seq<JobListItem>)
    requires Keyed(jobs) && StrictTotal(Newer) && keys == SortSet(Newer, KeysPast(jobs, queue, status, createdAt, id))
    requires page <= keys && RowsFor(jobs, page, items)
    ensures |items| == |page| && forall i | 0 <= i < |page| ::
      && items[i].id in jobs && Describes(items[i], jobs[items[i].id])
      && Wanted(jobs[items[i].id], queue, status, createdAt, id)
      && items[i].id == keys[i].id && items[i].createdAt == keys[i].createdAt
  {
    hide StrictTotal, SortSet, KeysPast, Wanted, Newer, Describes, ItemOf;
    forall i | 0 <= i < |page|
      ensures items[i].id in jobs && Describes(items[i], jobs[items[i].id])
      ensures Wanted(jobs[items[i].id], queue, status, createdAt, id)
      ensures items[i].id == keys[i].id && items[i].createdAt == keys[i].createdAt
    {
      assert keys[i] in Elements(keys);
      WantedKey(jobs, queue, status, createdAt, id, keys[i]);
      ItemDescribes(jobs[page[i].id]);
    }
  }

  /** A wanted job that is not on the page comes later in the order. */
  lemma OffPage(jobs: map<Uuid, Job>, queue: Option<string>, status: Option<Status>, createdAt: Option<Time>,
                id: Option<Uuid>, keys: seq<ListKey>, page: seq<ListKey>, items: seq<JobListItem>, j: Uuid)
    requires Keyed(jobs) && StrictTotal(Newer) && keys == SortSet(Newer, KeysPast(jobs, queue, status, createdAt, id))
    requires page <= keys && RowsFor(jobs, page, items)
    requires j in jobs && Wanted(jobs[j], queue, status, createdAt, id) && j !in ItemIds(items)
    ensures exists k :: |page| <= k < |keys| && keys[k] == ListKey(jobs[j].createdAt, j)
  {
    hide StrictTotal, SortSet, KeysPast, Wanted, Newer;
    var key := ListKey(jobs[j].createdAt, j);
    WantedKey(jobs, queue, status, createdAt, id, key);
    assert key in Elements(keys);
    var k :| 0 <= k < |keys| && keys[k] == key;
    NotOnPage(jobs, keys, page, items, k);
  }

  lemma ItemDescribes(j: Job)
    ensures Describes(ItemOf(j), j) && ItemOf(j).id == j.id && ItemOf(j).createdAt == j.createdAt
  {
  }

  lemma NotOnPage(jobs: map<Uuid, Job>, keys: seq<ListKey>, page: seq<ListKey>, items: seq<JobListItem>, k: nat)
    requires Keyed(jobs) && page <= keys && RowsFor(jobs, page, items) && k < |keys| && keys[k].id !in ItemIds(items)
    ensures k >= |page|
  {
    hide ItemOf;
    forall i | 0 <= i < |page|
      ensures page[i].id != keys[k].id
    {
      ItemDescribes(jobs[page[i].id]);
      assert items[i] in items && items[i].id == page[i].id;
    }
  }

  method ListJobs(jobs: map<Uuid, Job>, queue: Option<string>, status: Option<Status>, limit: int,
                  createdAt: Option<Time>, id: Option<Uuid>) returns (items: seq<JobListItem>)
    requires Keyed(jobs)
    ensures StrictTotal(Newer) &&
      RowsFor(jobs, Take(SortSet(Newer, KeysPast(jobs, queue, status, createdAt, id)), Clamp(limit, 1, 500)), items)
    ensures NewestFirst(jobs, queue, status, createdAt, id, items)
    ensures |items| <= if limit < 1 then 1 else if limit > 500 then 500 else limit
    ensures |items| < (if limit < 1 then 1 else if limit > 500 then 500 else limit) ==>
      AllListed(jobs, queue, status, createdAt, id, items)
  {
    hide StrictTotal, Newer, ItemOf, SortSet, NewestFirst, AllListed;
    NewerIsStrictTotal();
    var keys := Collect(Newer, KeysPast(jobs, queue, status, createdAt, id));
    var page := Take(keys, Clamp(limit, 1, 500));
    KeysAreJobs(jobs, KeysPast(jobs, queue, status, createdAt, id), keys);
    items := seq(|page|, i requires 0 <= i < |page| && page[i].id in jobs => ItemOf(jobs[page[i].id]));
    RowsAreNewestFirst(jobs, queue, status, createdAt, id, keys, page, items);
  }

  lemma KeysAreJobs(jobs: map<Uuid, Job>, wanted: set<ListKey>, keys: seq<ListKey>)
    requires forall k | k in wanted :: k.id in jobs
    requires StrictTotal(Newer) && keys == SortSet(Newer, wanted)
    ensures forall i | 0 <= i < |keys| :: keys[i].id in jobs
  {
    hide StrictTotal, Newer;
    assert forall i | 0 <= i < |keys| :: keys[i] in Elements(keys);
  }

  /** What lies past the cursor of the n-th row is exactly what follows that row. */
  lemma CursorResumes(jobs: map<Uuid, Job>, queue: Option<string>, status: Option<Status>, n: nat)
    requires Keyed(jobs)
    requires 0 < n <= |Everything(jobs, queue, status)|
    ensures var all := Everything(jobs, queue, status);
      StrictTotal(Newer) &&
      SortSet(Newer, KeysPast(jobs, queue, status, Some(all[n - 1].createdAt), Some(all[n - 1].id))) == all[n..]
  {
    hide SortSet;
    NewerIsStrictTotal();
    var all := Everything(jobs, queue, status);
    var c := all[n - 1];
    var past := KeysPast(jobs, queue, status, Some(c.createdAt), Some(c.id));
    forall k
      ensures k in Elements(all[n..]) <==> k in past
    {
      assert k in all <==> k in Elements(all);
      if k in past {
        assert k in all;
        var i :| 0 <= i < |all| && all[i] == k;
        assert i >= n;
        assert all[n..][i - n] == k;
      }
    }
    SortSetUnique(Newer, past, all[n..]);
  }

  /**
   * Following the cursor from page to page ends, and the pages together are the whole listing in order, each matching
   * job once, whatever the page limit.
   */
  method ListEverything(jobs: map<Uuid, Job>, queue: Option<string>, status: Option<Status>, limit: int)
    returns (all: seq<JobListItem>)
    requires Keyed(jobs)
    ensures RowsFor(jobs, Everything(jobs, queue, status), all)
    ensures NewestFirst(jobs, queue, status, None, None, all) && AllListed(jobs, queue, status, None, None, all)
  {
    hide SortSet, StrictTotal, Newer, KeysPast, RowsFor, Everything, ItemOf, Take, Keyed, NewestFirst, AllListed;
    all := [];
    var createdAt, id := None, None;
    ghost var keys := Everything(jobs, queue, status);
    ListingBegins(jobs, queue, status);
    while true
      invariant Listed(jobs, queue, status, all, createdAt, id)
      decreases |keys| - |all|
    {
      var page := ListJobs(jobs, queue, status, limit, createdAt, id);
      PageListed(jobs, queue, status, all, createdAt, id, page, limit);
      if page == [] {
        WholeListing(jobs, queue, status, all);
        break;
      }
      var last := page[|page| - 1];
      all := all + page;
      createdAt, id := Some(last.createdAt), Some(last.id);
    }
  }

  lemma WholeListing(jobs: map<Uuid, Job>, queue: Option<string>, status: Option<Status>, all: seq<JobListItem>)
    requires Keyed(jobs) && RowsFor(jobs, Everything(jobs, queue, status), all)
    ensures NewestFirst(jobs, queue, status, None, None, all) && AllListed(jobs, queue, status, None, None, all)
  {
    hide SortSet, StrictTotal, Newer, KeysPast, RowsFor, NewestFirst, AllListed, Keyed;
    NewerIsStrictTotal();
    var keys := Everything(jobs, queue, status);
    RowsAreNewestFirst(jobs, queue, status, None, None, keys, keys, all);
  }

  /** The rows so far are the beginning of the listing, and the cursor stands right after them. */
  ghost predicate Listed(jobs: map<Uuid, Job>, queue: Option<string>, status: Option<Status>, all: seq<JobListItem>,
                         createdAt: Option<Time>, id: Option<Uuid>) {
    var keys := Everything(jobs, queue, status);
    && |all| <= |keys| && RowsFor(jobs, keys[..|all|], all)
    && StrictTotal(Newer) && SortSet(Newer, KeysPast(jobs, queue, status, createdAt, id)) == keys[|all|..]
  }

  lemma ListingBegins(jobs: map<Uuid, Job>, queue: Option<string>, status: Option<Status>)
    ensures Listed(jobs, queue, status, [], None, None)
  {
    hide SortSet, StrictTotal, Newer, KeysPast;
    NewerIsStrictTotal();
  }

  /** A page goes on where the rows so far end; an empty one means that they are all. */
  lemma PageListed(jobs: map<Uuid, Job>, queue: Option<string>, status: Option<Status>, all: seq<JobListItem>,
                   createdAt: Option<Time>, id: Option<Uuid>, page: seq<JobListItem>, limit: int)
    requires Keyed(jobs) && Listed(jobs, queue, status, all, createdAt, id)
    requires RowsFor(jobs, Take(SortSet(Newer, KeysPast(jobs, queue, status, createdAt, id)), Clamp(limit, 1, 500)),
         page)
    ensures page == [] ==> RowsFor(jobs, Everything(jobs, queue, status), all)
    ensures page != [] ==>
      var last := page[|page| - 1];
      Listed(jobs, queue, status, all + page, Some(last.createdAt), Some(last.id))
    ensures |all| + |page| <= |Everything(jobs, queue, status)|
  {
    hide SortSet, StrictTotal, Newer, KeysPast, RowsFor, Everything, ItemOf, Take, Keyed;
    var keys := Everything(jobs, queue, status);
    PageExtends(jobs, keys, all, page, limit);
    if page == [] {
      assert keys[..|all|] == keys;
    } else {
      LastRow(jobs, queue, status, all + page);
      CursorResumes(jobs, queue, status, |all + page|);
      assert (all + page)[|all + page| - 1] == page[|page| - 1];
    }
  }

  lemma PageExtends(jobs: map<Uuid, Job>, keys: seq<ListKey>, all: seq<JobListItem>, page: seq<JobListItem>, limit: int)
    requires |all| <= |keys| && RowsFor(jobs, keys[..|all|], all)
    requires RowsFor(jobs, Take(keys[|all|..], Clamp(limit, 1, 500)), page)
    ensures |all| + |page| <= |keys| && RowsFor(jobs, keys[..|all| + |page|], all + page)
    ensures page == [] ==> |all| == |keys|
  {
    hide ItemOf;
    var n, m := |all|, |page|;
    forall i | 0 <= i < n + m
      ensures keys[..n + m][i].id in jobs && (all + page)[i] == ItemOf(jobs[keys[..n + m][i].id])
    {
      if i < n {
        assert keys[..n + m][i] == keys[..n][i];
      } else {
        assert keys[..n + m][i] == Take(keys[n..], Clamp(limit, 1, 500))[i - n];
      }
    }
  }

  /** The cursor read off the last row is the key of that row. */
  lemma LastRow(jobs: map<Uuid, Job>, queue: Option<string>, status: Option<Status>, all: seq<JobListItem>)
    requires Keyed(jobs)
    requires 0 < |all| <= |Everything(jobs, queue, status)|
    requires RowsFor(jobs, Everything(jobs, queue, status)[..|all|], all)
    ensures all[|all| - 1].createdAt == Everything(jobs, queue, status)[|all| - 1].createdAt
    ensures all[|all| - 1].id == Everything(jobs, queue, status)[|all| - 1].id
  {
    hide Newer, StrictTotal, SortSet;
    var keys := Everything(jobs, queue, status);
    assert keys[|all| - 1] in Elements(keys);
    assert keys[..|all|][|all| - 1] == keys[|all| - 1];
  }
}
