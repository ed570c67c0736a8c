/**
 * `ElectionListView.get_queryset` and `parse_date`
 * (backend/authentication/views.py): the election listing, newest start
 * first, narrowed by an optional status keyword and an optional range of
 * start dates.
 */
module ElectionList {
  import opened Optional
  import opened Text
  import opened Models
  import opened Serializers

  /** From midnight to 23:59:59 of the same day (no daylight-saving shift). */
  const EndOfDayOffset: int := 86399 * Second

  predicate SortedByStartDesc(es: seq<Election>) {
    forall i, j :: 0 <= i < j < |es| ==> es[i].start >= es[j].start
  }

  function Insert(e: Election, es: seq<Election>): (r: seq<Election>)
    requires SortedByStartDesc(es)
    ensures SortedByStartDesc(r)
    ensures multiset(r) == multiset(es) + multiset{e}
  {
    if es == [] || e.start >= es[0].start then
      InsertAtFront(e, es);
      [e] + es
    else
      var rest := Insert(e, es[1..]);
      InsertBehindHead(e, es, rest);
      [es[0]] + rest
  }

  lemma InsertAtFront(e: Election, es: seq<Election>)
    requires SortedByStartDesc(es)
    requires es == [] || e.start >= es[0].start
    ensures SortedByStartDesc([e] + es)
  {
    forall y | y in es ensures y.start <= e.start {
      var j :| 0 <= j < |es| && es[j] == y;
      assert es[0].start >= es[j].start;
    }
    ConsSorted(e, es);
  }

  lemma InsertBehindHead(e: Election, es: seq<Election>, rest: seq<Election>)
    requires es != [] && e.start < es[0].start && SortedByStartDesc(es)
    requires SortedByStartDesc(rest) && multiset(rest) == multiset(es[1..]) + multiset{e}
    ensures SortedByStartDesc([es[0]] + rest)
    ensures multiset([es[0]] + rest) == multiset(es) + multiset{e}
  {
    assert es == [es[0]] + es[1..];
    assert multiset([es[0]] + rest) == multiset{es[0]} + multiset(rest);
    forall x | x in es[1..] ensures x.start <= es[0].start {
      var j :| 0 <= j < |es[1..]| && es[1..][j] == x;
      assert es[j + 1] == x;
    }
    InsertHeadBound(e, es[1..], rest, es[0].start);
    ConsSorted(es[0], rest);
  }

  lemma ConsSorted(x: Election, rest: seq<Election>)
    requires SortedByStartDesc(rest)
    requires forall y :: y in rest ==> y.start <= x.start
    ensures SortedByStartDesc([x] + rest)
  {
    forall i, j | 0 <= i < j < |[x] + rest| ensures ([x] + rest)[i].start >= ([x] + rest)[j].start {
      assert ([x] + rest)[j] == rest[j - 1];
      if i > 0 {
        assert ([x] + rest)[i] == rest[i - 1];
      } else {
        assert rest[j - 1] in rest;
      }
    }
  }

  lemma InsertHeadBound(e: Election, tail: seq<Election>, rest: seq<Election>, bound: Instant)
    requires multiset(rest) == multiset(tail) + multiset{e}
    requires e.start <= bound && forall x :: x in tail ==> x.start <= bound
    ensures forall x :: x in rest ==> x.start <= bound
  {
    forall x | x in rest ensures x.start <= bound {
      assert x in multiset(rest);
    }
  }

  /** `order_by("-start_date")`: the same elections, latest start first (ties in some order). */
  function SortByStartDesc(es: seq<Election>): (r: seq<Election>)
    ensures SortedByStartDesc(r)
    ensures multiset(r) == multiset(es)
  {
    if es == [] then []
    else
      assert es == [es[0]] + es[1..];
      Insert(es[0], SortByStartDesc(es[1..]))
  }

  /**
   * `parse_date`: an absent or empty parameter gives no date; otherwise the
   * strict `%Y-%m-%d` parse, made timezone-aware at local midnight, which
   * this model takes as the given `parser` (None where strptime fails).
   */
  function ParseDate(param: Option<string>, parser: string -> Option<Instant>): (r: Option<Instant>)
    ensures param == None || param == Some("") ==> r == None
    ensures r.Some? ==> param.Some? && parser(param.value) == r
    ensures param.Some? && param.value != "" ==> r == parser(param.value)
  {
    if param.None? || param.value == "" then None else parser(param.value)
  }

  /** `(status or "all").lower()` */
  function StatusKeyword(param: Option<string>): string {
    Lower(if param.None? || param.value == "" then "all" else param.value)
  }

  /** The status filter: one of the three window tests, or none at all for any other keyword. */
  predicate KeptByStatus(e: Election, status: string, now: Instant) {
    if status == Active then e.start <= now && e.end >= now
    else if status == Archive then e.end < now
    else if status == Upcoming then e.start > now
    else true
  }

  /** The date filters: a start no earlier than `dateFrom`, no later than 23:59:59 of the `dateTo` day. */
  predicate KeptByDates(e: Election, dateFrom: Option<Instant>, dateTo: Option<Instant>) {
    && (dateFrom.Some? ==> e.start >= dateFrom.value)
    && (dateTo.Some? ==> e.start <= dateTo.value + EndOfDayOffset)
  }

  predicate Kept(e: Election, status: string, dateFrom: Option<Instant>, dateTo: Option<Instant>, now: Instant) {
    KeptByStatus(e, status, now) && KeptByDates(e, dateFrom, dateTo)
  }

  /** Whether the listing's query parameters let election `e` through. */
  predicate Listed(e: Election, statusParam: Option<string>, dateFromParam: Option<string>,
    dateToParam: Option<string>, now: Instant, parser: string -> Option<Instant>)
  {
    Kept(e, StatusKeyword(statusParam), ParseDate(dateFromParam, parser), ParseDate(dateToParam, parser), now)
  }

  /** The queryset filters applied to an already ordered list. */
  function Select(es: seq<Election>, status: string, dateFrom: Option<Instant>, dateTo: Option<Instant>, now: Instant)
    : seq<Election>
  {
    if es == [] then []
    else if Kept(es[0], status, dateFrom, dateTo, now) then [es[0]] + Select(es[1..], status, dateFrom, dateTo, now)
    else Select(es[1..], status, dateFrom, dateTo, now)
  }

  /** Filtering drops exactly the rejected rows and keeps every other row as often as it occurs. */
  lemma {:induction false} SelectKeepsRows(
    es: seq<Election>, status: string, dateFrom: Option<Instant>, dateTo: Option<Instant>, now: Instant)
    ensures var r := Select(es, status, dateFrom, dateTo, now);
      forall x :: multiset(r)[x] == if Kept(x, status, dateFrom, dateTo, now) then multiset(es)[x] else 0
  {
    if es != [] {
      SelectKeepsRows(es[1..], status, dateFrom, dateTo, now);
      assert es == [es[0]] + es[1..];
    }
  }

  /** Filtering keeps the order of the rows it keeps. */
  lemma {:induction false} SelectKeepsOrder(
    es: seq<Election>, status: string, dateFrom: Option<Instant>, dateTo: Option<Instant>, now: Instant)
    requires SortedByStartDesc(es)
    ensures SortedByStartDesc(Select(es, status, dateFrom, dateTo, now))
  {
    if es != [] {
      var rest := Select(es[1..], status, dateFrom, dateTo, now);
      SelectKeepsOrder(es[1..], status, dateFrom, dateTo, now);
      if Kept(es[0], status, dateFrom, dateTo, now) {
        SelectKeepsRows(es[1..], status, dateFrom, dateTo, now);
        forall x | x in rest ensures x.start <= es[0].start {
          assert x in multiset(rest);
          assert x in multiset(es[1..]);
        }
      }
    }
  }

  /**
   * The listing: every stored election that passes the status and date
   * filters, as often as it is stored, and newest start first.
   */
  function GetQueryset(
    elections: seq<Election>, statusParam: Option<string>, dateFromParam: Option<string>,
    dateToParam: Option<string>, now: Instant, parser: string -> Option<Instant>)
    : (r: seq<Election>)
    ensures SortedByStartDesc(r)
    ensures forall e :: multiset(r)[e] == if Listed(e, statusParam, dateFromParam, dateToParam, now, parser)
                                          then multiset(elections)[e] else 0
  {
    var status, dateFrom, dateTo := StatusKeyword(statusParam), ParseDate(dateFromParam, parser), ParseDate(dateToParam, parser);
    SelectKeepsRows(SortByStartDesc(elections), status, dateFrom, dateTo, now);
    SelectKeepsOrder(SortByStartDesc(elections), status, dateFrom, dateTo, now);
    Select(SortByStartDesc(elections), StatusKeyword(statusParam),
      ParseDate(dateFromParam, parser), ParseDate(dateToParam, parser), now)
  }

  /** The "active" and "archive" filters keep exactly the elections the serializer labels so. */
  lemma ActiveAndArchiveFiltersMatchLabels(e: Election, now: Instant)
    ensures KeptByStatus(e, Active, now) <==> GetStatus(e, now) == Active
    ensures KeptByStatus(e, Archive, now) <==> GetStatus(e, now) == Archive
  {
  }

  /** For an election whose window is well formed, the "upcoming" filter also matches its label. */
  lemma UpcomingFilterMatchesLabel(e: Election, now: Instant)
    requires e.start <= e.end
    ensures KeptByStatus(e, Upcoming, now) <==> GetStatus(e, now) == Upcoming
  {
  }

  /** With an inverted window the "upcoming" filter lists an election that is labelled "archive". */
  lemma UpcomingFilterDisagreesOnInvertedWindow()
    ensures var e := Election(1, "", 20, 5, []);
      KeptByStatus(e, Upcoming, 10) && GetStatus(e, 10) == Archive
  {
  }

  /** The keyword is case-insensitive and defaults to "all", which filters nothing. */
  lemma StatusKeywordDefaults(e: Election, now: Instant, s: string)
    ensures StatusKeyword(None) == "all" && StatusKeyword(Some("")) == "all"
    ensures StatusKeyword(Some("ACTIVE")) == Active
    ensures StatusKeyword(Some(s)) == StatusKeyword(Some(Lower(s)))
    ensures KeptByStatus(e, StatusKeyword(None), now)
  {
    assert Lower("ACTIVE") == "active";
    LowerIdempotent(s);
  }

  /** `date_to` keeps an election starting at 23:59:59 of that day and drops one starting a microsecond later. */
  lemma DateToCoversTheDay(midnight: Instant, e: Election, f: Election)
    requires e.start == midnight + 86399 * Second && f.start == e.start + 1
    ensures KeptByDates(e, None, Some(midnight))
    ensures !KeptByDates(f, None, Some(midnight))
  {
  }
}
