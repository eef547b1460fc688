/** Paged event queries: `getEvents` and the repository's find, sort, skip and limit, on a fixed snapshot. */
module EventQuery {
  import opened Wrappers
  import StableSort

  datatype StoredEvent = StoredEvent(ownerId: string, eventName: string, category: string, severity: string,
                                     tags: seq<string>, timestamp: int, createdAt: int)

  datatype SortField = ByTimestamp | ByCreatedAt | ByEventName | BySeverity

  datatype SortOrder = Asc | Desc

  /** What a request may ask; what it leaves out has a default. */
  datatype Query = Query(page: nat, limit: nat, eventName: string, category: string, severity: string,
                         tags: seq<string>, fromDate: Option<int>, toDate: Option<int>,
                         sortBy: Option<SortField>, sortOrder: Option<SortOrder>)

  /** The Mongo filter; what is `None` is not constrained. */
  datatype Filter = Filter(ownerId: string, eventName: Option<string>, category: Option<string>,
                           severity: Option<string>, tagsIn: Option<seq<string>>, since: Option<int>, until: Option<int>)

  predicate Allows<T(==)>(constraint: Option<T>, value: T) {
    constraint.None? || constraint.value == value
  }

  predicate Matches(f: Filter, e: StoredEvent) {
    && e.ownerId == f.ownerId
    && Allows(f.eventName, e.eventName) && Allows(f.category, e.category) && Allows(f.severity, e.severity)
    && (f.tagsIn.Some? ==> exists t | t in e.tags :: t in f.tagsIn.value)
    && (f.since.Some? ==> f.since.value <= e.timestamp)
    && (f.until.Some? ==> e.timestamp <= f.until.value)
  }

  /** `find`. */
  function Find(f: Filter, events: seq<StoredEvent>): seq<StoredEvent> {
    if events == [] then []
    else if Matches(f, events[0]) then [events[0]] + Find(f, events[1..])
    else Find(f, events[1..])
  }

  /** Mongo's order on strings: by code points, a prefix first. */
  predicate StringLeq(a: string, b: string) {
    a == "" || (b != "" && (a[0] < b[0] || (a[0] == b[0] && StringLeq(a[1..], b[1..]))))
  }

  predicate Leq(field: SortField, a: StoredEvent, b: StoredEvent) {
    match field
    case ByTimestamp => a.timestamp <= b.timestamp
    case ByCreatedAt => a.createdAt <= b.createdAt
    case ByEventName => StringLeq(a.eventName, b.eventName)
    case BySeverity => StringLeq(a.severity, b.severity)
  }

  function Order(field: SortField, ascending: bool): (StoredEvent, StoredEvent) -> bool {
    (a, b) => if ascending then Leq(field, a, b) else Leq(field, b, a)
  }

  /** `sort`, with ties in storage order. */
  function Sort(field: SortField, ascending: bool, es: seq<StoredEvent>): seq<StoredEvent> {
    StableSort.Sort(Order(field, ascending), es)
  }

  function SkipLimit<T>(s: seq<T>, skip: nat, limit: nat): seq<T> {
    if |s| <= skip then []
    else if |s| <= skip + limit then s[skip..]
    else s[skip..skip + limit]
  }

  function TotalPages(total: nat, limit: nat): nat
    requires limit >= 1
  {
    if total == 0 then 0 else (total + limit - 1) / limit
  }

  /** The echo of the filters in a reply; what was not given is null, or its default. */
  datatype Applied = Applied(eventName: Option<string>, category: Option<string>, severity: Option<string>,
                             tags: seq<string>, fromDate: Option<int>, toDate: Option<int>,
                             sortBy: SortField, sortOrder: SortOrder)

  datatype Page = Page(events: seq<StoredEvent>, page: nat, limit: nat, total: nat, totalPages: nat,
                       filtersApplied: Applied)

  datatype QueryError = FromAfterTo

  /** Every event of the owner that the query asks for, and no other. */
  ghost predicate Asked(ownerId: string, q: Query, e: StoredEvent) {
    && e.ownerId == ownerId
    && (q.eventName != "" ==> e.eventName == q.eventName)
    && (q.category != "" ==> e.category == q.category)
    && (q.severity != "" ==> e.severity == q.severity)
    && (q.tags != [] ==> exists t :: t in e.tags && t in q.tags)
    && (q.fromDate.Some? ==> q.fromDate.value <= e.timestamp)
    && (q.toDate.Some? ==> e.timestamp <= q.toDate.value)
  }

  /** The field a query is sorted by, and whether it goes up: by time and newest first unless it says otherwise. */
  function FieldOf(q: Query): SortField {
    if q.sortBy.Some? then q.sortBy.value else ByTimestamp
  }

  predicate Ascending(q: Query) {
    q.sortOrder == Some(Asc)
  }

  /** `a` comes before `b` as text, or is the same: it is a prefix, or smaller where they first differ. */
  ghost predicate TextOrder(a: string, b: string) {
    a <= b || exists k :: 0 <= k < |a| && k < |b| && a[..k] == b[..k] && a[k] < b[k]
  }

  /** The events are in the order asked for: newest first by default, and ascending or descending in the field named. */
  ghost predicate InOrder(q: Query, es: seq<StoredEvent>) {
    && (q.sortBy == None || q.sortBy == Some(ByTimestamp) ==>
          forall i, j | 0 <= i < j < |es| ::
            if q.sortOrder == Some(Asc) then es[i].timestamp <= es[j].timestamp else es[i].timestamp >= es[j].timestamp)
    && (q.sortBy == Some(ByCreatedAt) ==>
          forall i, j | 0 <= i < j < |es| ::
            if q.sortOrder == Some(Asc) then es[i].createdAt <= es[j].createdAt else es[i].createdAt >= es[j].createdAt)
    && (q.sortBy == Some(ByEventName) ==>
          forall i, j | 0 <= i < j < |es| ::
            if q.sortOrder == Some(Asc) then TextOrder(es[i].eventName, es[j].eventName)
            else TextOrder(es[j].eventName, es[i].eventName))
    && (q.sortBy == Some(BySeverity) ==>
          forall i, j | 0 <= i < j < |es| ::
            if q.sortOrder == Some(Asc) then TextOrder(es[i].severity, es[j].severity)
            else TextOrder(es[j].severity, es[i].severity))
  }

  /** The whole answer to a query, before paging. */
  ghost predicate Answers(all: seq<StoredEvent>, events: seq<StoredEvent>, ownerId: string, q: Query) {
    && InOrder(q, all)
    && (forall e :: multiset(all)[e] == if Asked(ownerId, q, e) then multiset(events)[e] else 0)
  }

  lemma {:induction false} StringLeqTotal(a: string, b: string)
    ensures StringLeq(a, b) || StringLeq(b, a)
  {
    if a != "" && b != "" {
      StringLeqTotal(a[1..], b[1..]);
    }
  }

  lemma {:induction false} StringLeqTransitive(a: string, b: string, c: string)
    requires StringLeq(a, b) && StringLeq(b, c)
    ensures StringLeq(a, c)
  {
    if a != "" && a[0] == b[0] == c[0] {
      StringLeqTransitive(a[1..], b[1..], c[1..]);
    }
  }

  lemma LeqTotal(field: SortField, a: StoredEvent, b: StoredEvent)
    ensures Leq(field, a, b) || Leq(field, b, a)
  {
    StringLeqTotal(a.eventName, b.eventName);
    StringLeqTotal(a.severity, b.severity);
  }

  lemma LeqTransitive(field: SortField, a: StoredEvent, b: StoredEvent, c: StoredEvent)
    requires Leq(field, a, b) && Leq(field, b, c)
    ensures Leq(field, a, c)
  {
    match field
    case ByEventName => StringLeqTransitive(a.eventName, b.eventName, c.eventName);
    case BySeverity => StringLeqTransitive(a.severity, b.severity, c.severity);
    case _ =>
  }

  lemma OrderIsTotalPreorder(field: SortField, ascending: bool)
    ensures StableSort.TotalPreorder(Order(field, ascending))
  {
    var le := Order(field, ascending);
    forall x, y ensures le(x, y) || le(y, x) {
      LeqTotal(field, x, y);
    }
    forall x, y, z | le(x, y) && le(y, z) ensures le(x, z) {
      if ascending {
        LeqTransitive(field, x, y, z);
      } else {
        LeqTransitive(field, z, y, x);
      }
    }
  }

  lemma {:induction false} StringLeqIsTextOrder(a: string, b: string)
    ensures StringLeq(a, b) <==> TextOrder(a, b)
  {
    if a != "" && b != "" && a[0] == b[0] {
      StringLeqIsTextOrder(a[1..], b[1..]);
      TextOrderCons(a, b);
    } else if a != "" && b != "" {
      if a[0] < b[0] {
        assert a[..0] == b[..0];
      }
      assert forall k | 0 < k < |a| && k < |b| :: a[..k][0] != b[..k][0];
    }
  }

  /** A common first character does not matter. */
  lemma TextOrderCons(a: string, b: string)
    requires a != "" && b != "" && a[0] == b[0]
    ensures TextOrder(a, b) <==> TextOrder(a[1..], b[1..])
  {
    assert a == [a[0]] + a[1..] && b == [b[0]] + b[1..];
    if k :| 0 <= k < |a| && k < |b| && a[..k] == b[..k] && a[k] < b[k] {
      assert a[..k][1..] == a[1..][..k - 1] && b[..k][1..] == b[1..][..k - 1];
      assert a[1..][k - 1] < b[1..][k - 1];
    }
    if k :| 0 <= k < |a[1..]| && k < |b[1..]| && a[1..][..k] == b[1..][..k] && a[1..][k] < b[1..][k] {
      assert a[..k + 1] == [a[0]] + a[1..][..k] && b[..k + 1] == [b[0]] + b[1..][..k];
      assert a[k + 1] < b[k + 1];
    }
  }

  lemma SortCorrect(q: Query, es: seq<StoredEvent>)
    ensures InOrder(q, Sort(FieldOf(q), Ascending(q), es))
    ensures multiset(Sort(FieldOf(q), Ascending(q), es)) == multiset(es)
  {
    var le, sorted := Order(FieldOf(q), Ascending(q)), Sort(FieldOf(q), Ascending(q), es);
    OrderIsTotalPreorder(FieldOf(q), Ascending(q));
    StableSort.SortCorrect(le, es);
    forall i, j | 0 <= i < j < |sorted|
      ensures if Ascending(q) then Leq(FieldOf(q), sorted[i], sorted[j]) else Leq(FieldOf(q), sorted[j], sorted[i])
    {
      assert le(sorted[i], sorted[j]);
    }
    forall a: string, b: string ensures StringLeq(a, b) <==> TextOrder(a, b) {
      StringLeqIsTextOrder(a, b);
    }
  }

  lemma {:induction false} FindCount(f: Filter, events: seq<StoredEvent>, e: StoredEvent)
    ensures multiset(Find(f, events))[e] == if Matches(f, e) then multiset(events)[e] else 0
  {
    if events != [] {
      FindCount(f, events[1..], e);
      assert events == [events[0]] + events[1..];
    }
  }

  function Given(s: string): Option<string> {
    if s != "" then Some(s) else None
  }

  function FilterOf(ownerId: string, q: Query): Filter {
    Filter(ownerId, Given(q.eventName), Given(q.category), Given(q.severity),
           if |q.tags| > 0 then Some(q.tags) else None, q.fromDate, q.toDate)
  }

  /** Everything a query finds, sorted. Ties are in storage order, for every page alike. */
  function Answer(events: seq<StoredEvent>, ownerId: string, q: Query): seq<StoredEvent> {
    Sort(FieldOf(q), Ascending(q), Find(FilterOf(ownerId, q), events))
  }

  function PageOf<T>(all: seq<T>, page: nat, limit: nat): seq<T>
    requires page >= 1
  {
    SkipLimit(all, (page - 1) * limit, limit)
  }

  function PageSize(q: Query): (limit: nat)
    ensures limit >= 1
  {
    if q.limit == 0 then 50 else q.limit
  }

  /** A page of the answer to a query: by default the first, of fifty. */
  ghost predicate IsPage(p: Page, events: seq<StoredEvent>, ownerId: string, q: Query) {
    var all := Answer(events, ownerId, q);
    && p.page == (if q.page == 0 then 1 else q.page) && p.limit == (if q.limit == 0 then 50 else q.limit)
    && p.events == PageOf(all, p.page, p.limit)
    && p.total == |all| && p.totalPages == TotalPages(|all|, p.limit)
    && Echoes(p.filtersApplied, q)
  }

  predicate Echoes(a: Applied, q: Query) {
    && a.eventName == (if q.eventName == "" then None else Some(q.eventName))
    && a.category == (if q.category == "" then None else Some(q.category))
    && a.severity == (if q.severity == "" then None else Some(q.severity))
    && a.tags == q.tags && a.fromDate == q.fromDate && a.toDate == q.toDate
    && a.sortBy == (if q.sortBy == None then ByTimestamp else q.sortBy.value)
    && a.sortOrder == (if q.sortOrder == None then Desc else q.sortOrder.value)
  }

  /** The part of `getEvents` that builds the filter. */
  method BuildFilter(ownerId: string, q: Query) returns (r: Result<Filter, QueryError>)
    ensures r == if q.fromDate.Some? && q.toDate.Some? && q.fromDate.value > q.toDate.value then Err(FromAfterTo)
                 else Ok(FilterOf(ownerId, q))
  {
    var filter := Filter(ownerId, None, None, None, None, None, None);
    if q.eventName != "" {
      filter := filter.(eventName := Some(q.eventName));
    }
    if q.category != "" {
      filter := filter.(category := Some(q.category));
    }
    if q.severity != "" {
      filter := filter.(severity := Some(q.severity));
    }
    if |q.tags| > 0 {
      filter := filter.(tagsIn := Some(q.tags));
    }
    if q.fromDate.Some? || q.toDate.Some? {
      if q.fromDate.Some? && q.toDate.Some? && q.fromDate.value > q.toDate.value {
        return Err(FromAfterTo);
      }
      filter := filter.(since := q.fromDate, until := q.toDate);
    }
    r := Ok(filter);
  }

  /** `getEvents`. */
  method GetEvents(events: seq<StoredEvent>, ownerId: string, q: Query) returns (r: Result<Page, QueryError>)
    ensures r.Err? <==> q.fromDate.Some? && q.toDate.Some? && q.fromDate.value > q.toDate.value
    ensures r.Ok? ==> IsPage(r.value, events, ownerId, q) && Answers(Answer(events, ownerId, q), events, ownerId, q)
  {
    var filter := BuildFilter(ownerId, q);
    if filter.Err? {
      return Err(filter.error);
    }
    var page := if q.page == 0 then 1 else q.page;
    var limit := if q.limit == 0 then 50 else q.limit;
    var skip := (page - 1) * limit;
    var found := Find(filter.value, events);
    var items := SkipLimit(Sort(FieldOf(q), Ascending(q), found), skip, limit);
    var total := |found|;
    FoundIsAnswer(filter.value, events, ownerId, q);
    var applied := Applied(Given(q.eventName), Given(q.category), Given(q.severity), q.tags, q.fromDate, q.toDate,
                           FieldOf(q), if q.sortOrder == None then Desc else q.sortOrder.value);
    r := Ok(Page(items, page, limit, total, TotalPages(total, limit), applied));
  }

  /** Finding and sorting yield exactly the events that are asked for, as often as they are stored. */
  lemma FoundIsAnswer(f: Filter, events: seq<StoredEvent>, ownerId: string, q: Query)
    requires f == FilterOf(ownerId, q)
    ensures Answers(Answer(events, ownerId, q), events, ownerId, q)
    ensures |Answer(events, ownerId, q)| == |Find(f, events)|
  {
    var found := Find(f, events);
    var sorted := Sort(FieldOf(q), Ascending(q), found);
    SortCorrect(q, found);
    assert |sorted| == |multiset(sorted)| == |multiset(found)| == |found|;
    forall e ensures multiset(sorted)[e] == if Asked(ownerId, q, e) then multiset(events)[e] else 0 {
      FindCount(f, events, e);
      assert Matches(f, e) <==> Asked(ownerId, q, e);
    }
  }

  // ----- Pages -----

  function Pages<T>(all: seq<T>, n: nat, limit: nat): seq<T> {
    if n == 0 then [] else Pages(all, n - 1, limit) + PageOf(all, n, limit)
  }

  lemma {:induction false} PagesArePrefix<T>(all: seq<T>, n: nat, limit: nat)
    requires n * limit <= |all|
    ensures Pages(all, n, limit) == all[..n * limit]
  {
    if n > 0 {
      assert (n - 1) * limit + limit == n * limit;
      PagesArePrefix(all, n - 1, limit);
    }
  }

  lemma PageBounds(total: nat, limit: nat)
    requires limit >= 1 && total >= 1
    ensures var n := TotalPages(total, limit); n >= 1 && (n - 1) * limit < total <= n * limit
  {
    var n := TotalPages(total, limit);
    assert total + limit - 1 == n * limit + (total + limit - 1) % limit;
    assert (n - 1) * limit == n * limit - limit;
  }

  lemma AllPages<T>(all: seq<T>, n: nat, limit: nat)
    requires n >= 1 && (n - 1) * limit < |all| <= n * limit
    ensures Pages(all, n, limit) == all && 1 <= |PageOf(all, n, limit)| <= limit
  {
    var skip := (n - 1) * limit;
    assert skip + limit == n * limit;
    PagesArePrefix(all, n - 1, limit);
    assert PageOf(all, n, limit) == all[skip..];
    assert all == all[..skip] + all[skip..];
  }

  lemma EarlierPageFull<T>(all: seq<T>, p: nat, n: nat, limit: nat)
    requires 1 <= p < n && (n - 1) * limit < |all|
    ensures |PageOf(all, p, limit)| == limit
  {
    Multiples(p, n - 1, limit);
    assert (p - 1) * limit + limit == p * limit;
  }

  lemma LaterPageEmpty<T>(all: seq<T>, p: nat, n: nat, limit: nat)
    requires p > n && |all| <= n * limit
    ensures PageOf(all, p, limit) == []
  {
    Multiples(n, p - 1, limit);
  }

  /** Pages 1 to `totalPages` are exactly the whole answer, cut into full pages and a last one that is not empty;
      any later page is empty. */
  lemma PagesCoverAll<T>(all: seq<T>, limit: nat)
    requires limit >= 1
    ensures var n := TotalPages(|all|, limit);
            && Pages(all, n, limit) == all
            && (forall p | 1 <= p < n :: |PageOf(all, p, limit)| == limit)
            && (n >= 1 ==> 1 <= |PageOf(all, n, limit)| <= limit)
            && (forall p | p > n :: PageOf(all, p, limit) == [])
  {
    var n := TotalPages(|all|, limit);
    if |all| > 0 {
      PageBounds(|all|, limit);
      AllPages(all, n, limit);
    }
    forall p | 1 <= p < n ensures |PageOf(all, p, limit)| == limit {
      EarlierPageFull(all, p, n, limit);
    }
    forall p: nat | p > n ensures PageOf(all, p, limit) == [] {
      LaterPageEmpty(all, p, n, limit);
    }
  }

  lemma Multiples(a: nat, b: nat, c: nat)
    requires a <= b
    ensures a * c <= b * c
  {
  }

  // ----- The pages of one query -----

  function EventsOn(pages: seq<Page>): seq<StoredEvent> {
    if pages == [] then [] else EventsOn(pages[..|pages| - 1]) + pages[|pages| - 1].events
  }

  lemma {:induction false} EventsOnPages(pages: seq<Page>, events: seq<StoredEvent>, ownerId: string, q: Query)
    requires forall i | 0 <= i < |pages| :: IsPage(pages[i], events, ownerId, q.(page := i + 1))
    ensures EventsOn(pages) == Pages(Answer(events, ownerId, q), |pages|, PageSize(q))
  {
    if pages != [] {
      var n := |pages| - 1;
      EventsOnPages(pages[..n], events, ownerId, q);
      assert IsPage(pages[n], events, ownerId, q.(page := n + 1));
      assert Answer(events, ownerId, q.(page := n + 1)) == Answer(events, ownerId, q);
    }
  }

  /** Asking for page after page of one query, as many as `totalPages` says, yields exactly the events that are asked
      for, each as often as it is stored, in order. */
  lemma PagesOfQuery(events: seq<StoredEvent>, ownerId: string, q: Query, pages: seq<Page>)
    requires forall i | 0 <= i < |pages| :: IsPage(pages[i], events, ownerId, q.(page := i + 1))
    requires |pages| == TotalPages(|Answer(events, ownerId, q)|, PageSize(q))
    ensures EventsOn(pages) == Answer(events, ownerId, q)
    ensures Answers(EventsOn(pages), events, ownerId, q)
  {
    EventsOnPages(pages, events, ownerId, q);
    PagesCoverAll(Answer(events, ownerId, q), PageSize(q));
    FoundIsAnswer(FilterOf(ownerId, q), events, ownerId, q);
  }
}
