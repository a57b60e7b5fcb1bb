/**
 * The employee list's data join (src/lib/employees.ts): the query string of
 * a page request, the total count, and the merge of basic and detail records
 * by employee id.  Absent and `null` JSON properties are both `None`.
 */
module Employees {
  import opened Wrappers
  import opened Text
  import opened UrlParams

  datatype BasicInfo = BasicInfo(
    id: Option<int>,
    employeeId: Option<string>,
    fullName: Option<string>,
    department: Option<string>,
    role: Option<string>)

  datatype DetailInfo = DetailInfo(
    employeeId: Option<string>,
    locationId: Option<string>,
    location: Option<string>,
    photo: Option<string>)

  datatype EmployeeRecord = EmployeeRecord(
    employeeId: string,
    fullName: string,
    department: string,
    role: string,
    location: string,
    photo: Option<string>)

  /** A JavaScript number option is truthy when present and non-zero. */
  predicate Truthy(n: Option<int>) {
    n.Some? && n.value != 0
  }

  /** The pairs `buildQuery` sets, in order: `_page` then `_limit`, each only when truthy. */
  function QueryParams(page: Option<int>, limit: Option<int>): (ps: Params)
    ensures GetParam(ps, "_page").Some? <==> Truthy(page)
    ensures Truthy(page) ==> GetParam(ps, "_page") == Some(IntToString(page.value))
    ensures GetParam(ps, "_limit").Some? <==> Truthy(limit)
    ensures Truthy(limit) ==> GetParam(ps, "_limit") == Some(IntToString(limit.value))
    ensures Truthy(page) && Truthy(limit) ==> ps[0].0 == "_page" && ps[1].0 == "_limit"
    // nothing else is set
    ensures |ps| == (if Truthy(page) then 1 else 0) + (if Truthy(limit) then 1 else 0)
  {
    (if Truthy(page) then [("_page", IntToString(page.value))] else [])
    + (if Truthy(limit) then [("_limit", IntToString(limit.value))] else [])
  }

  /** `buildQuery(params)`: set the truthy parameters on a fresh `URLSearchParams`, then serialize. */
  method BuildQuery(page: Option<int>, limit: Option<int>) returns (query: string)
    ensures query == Serialize(QueryParams(page, limit))
  {
    var params := new SearchParams();
    if Truthy(page) {
      params.Set("_page", IntToString(page.value));
    }
    if Truthy(limit) {
      params.Set("_limit", IntToString(limit.value));
    }
    query := Serialize(params.pairs);
  }

  lemma IntToStringIsPlain(n: int)
    ensures forall j :: 0 <= j < |IntToString(n)| ==> IntToString(n)[j] != '&'
  {
    var s := IntToString(n);
    var digits := NatToString(if n < 0 then -n else n);
    assert s == digits || s == "-" + digits;
  }

  /** The query string parses back to exactly the pairs that were set. */
  lemma BuildQueryParses(page: Option<int>, limit: Option<int>)
    ensures Parse("?" + Serialize(QueryParams(page, limit))) == QueryParams(page, limit)
  {
    if Truthy(page) {
      IntToStringIsPlain(page.value);
    }
    if Truthy(limit) {
      IntToStringIsPlain(limit.value);
    }
    ParseQueryOfSerialize(QueryParams(page, limit));
  }

  /** `fetchEmployees`' defaults: page 1 and limit 10 when not given. */
  function RequestedPage(page: Option<int>): (p: int)
    ensures page.None? ==> p == 1
    ensures page.Some? ==> p == page.value
  {
    page.GetOr(1)
  }

  function RequestedLimit(limit: Option<int>): (l: int)
    ensures limit.None? ==> l == 10
    ensures limit.Some? ==> l == limit.value
  {
    limit.GetOr(10)
  }

  /**
   * `total`: the `x-total-count` header when it is a non-zero number, else
   * the number of basic records.  A missing or non-numeric header is `None`.
   */
  function Total(header: Option<int>, basicCount: nat): (total: int)
    ensures Truthy(header) ==> total == header.value
    ensures !Truthy(header) ==> total == basicCount
  {
    if Truthy(header) then header.value else basicCount
  }

  /** The key a detail is filed under: its employee id, or "" (never filed). */
  function DetailKey(d: DetailInfo): string {
    d.employeeId.GetOr("")
  }

  /** `detailsMap` after the `forEach` over `details`: later details overwrite earlier ones. */
  function DetailsIndex(details: seq<DetailInfo>): (m: map<string, DetailInfo>)
    ensures "" !in m
    ensures forall k :: k in m ==> k == DetailKey(m[k]) && m[k] in details
  {
    if details == [] then map[]
    else
      var m := DetailsIndex(details[..|details| - 1]);
      var last := details[|details| - 1];
      var key := DetailKey(last);
      if key != "" then m[key := last] else m
  }

  /** The `forEach` loop, filling the map in place. */
  method BuildDetailsMap(details: seq<DetailInfo>) returns (m: map<string, DetailInfo>)
    ensures m == DetailsIndex(details)
  {
    m := map[];
    var i := 0;
    while i < |details|
      invariant 0 <= i <= |details|
      invariant m == DetailsIndex(details[..i])
    {
      var detail := details[i];
      assert details[..i + 1][..i] == details[..i];
      var key := DetailKey(detail);
      if key != "" {
        m := m[key := detail];
      }
      i := i + 1;
    }
    assert details[..i] == details;
  }

  /** The position of the last detail filed under `k`, if any. */
  function LastIndexOf(details: seq<DetailInfo>, k: string): (r: Option<nat>)
    ensures r.Some? ==> r.value < |details| && DetailKey(details[r.value]) == k
    ensures r.Some? ==> forall j :: r.value < j < |details| ==> DetailKey(details[j]) != k
    ensures r.None? ==> forall j :: 0 <= j < |details| ==> DetailKey(details[j]) != k
  {
    if details == [] then None
    else if DetailKey(details[|details| - 1]) == k then Some(|details| - 1)
    else LastIndexOf(details[..|details| - 1], k)
  }

  /** The index holds a non-empty key exactly when some detail carries it, and then the last such detail. */
  lemma {:induction false} DetailsIndexLastWins(details: seq<DetailInfo>, k: string)
    requires k != ""
    ensures k in DetailsIndex(details) <==> LastIndexOf(details, k).Some?
    ensures k in DetailsIndex(details) ==> DetailsIndex(details)[k] == details[LastIndexOf(details, k).value]
    decreases |details|
  {
    if details != [] {
      var n := |details| - 1;
      var init := details[..n];
      DetailsIndexLastWins(init, k);
      if DetailKey(details[n]) != k {
        var r := LastIndexOf(init, k);
        assert LastIndexOf(details, k) == r;
        if r.Some? {
          assert init[r.value] == details[r.value];
        }
      }
    }
  }

  /** `basic.employeeId ?? basic.id?.toString() ?? ''` */
  function RecordId(basic: BasicInfo): (id: string)
    ensures basic.employeeId.Some? ==> id == basic.employeeId.value
    ensures basic.employeeId.None? && basic.id.Some? ==> id == IntToString(basic.id.value)
    ensures basic.employeeId.None? && basic.id.None? ==> id == ""
  {
    match basic.employeeId
    case Some(e) => e
    case None => if basic.id.Some? then IntToString(basic.id.value) else ""
  }

  /** `s || '-'`: an absent or empty string shows as a dash. */
  function OrDash(s: Option<string>): (r: string)
    ensures s.Some? && s.value != "" ==> r == s.value
    ensures s.None? || s.value == "" ==> r == "-"
  {
    if s.Some? && s.value != "" then s.value else "-"
  }

  /** The record built for one basic entry, joined with the detail filed under its id. */
  function MergeOne(basic: BasicInfo, index: map<string, DetailInfo>): (r: EmployeeRecord)
    ensures r.employeeId == RecordId(basic)
    ensures r.fullName == basic.fullName.GetOr("Unknown")
    ensures r.department == OrDash(basic.department) && r.role == OrDash(basic.role)
    ensures RecordId(basic) !in index ==> r.location == "N/A" && r.photo.None?
    ensures RecordId(basic) in index ==>
              var d := index[RecordId(basic)];
              r.location == d.location.GetOr(d.locationId.GetOr("N/A")) && r.photo == d.photo
  {
    var employeeId := RecordId(basic);
    var detail: Option<DetailInfo> := if employeeId in index then Some(index[employeeId]) else None;
    EmployeeRecord(
      employeeId,
      basic.fullName.GetOr("Unknown"),
      OrDash(basic.department),
      OrDash(basic.role),
      match detail
      case Some(d) => d.location.GetOr(d.locationId.GetOr("N/A"))
      case None => "N/A",
      match detail
      case Some(d) => d.photo
      case None => None)
  }

  /** `merged`: one record per basic entry, in the same order. */
  function MergeRecords(basics: seq<BasicInfo>, details: seq<DetailInfo>): (records: seq<EmployeeRecord>)
    ensures |records| == |basics|
    ensures forall i :: 0 <= i < |basics| ==> records[i].employeeId == RecordId(basics[i])
    ensures forall i :: 0 <= i < |basics| ==>
              && records[i].fullName == basics[i].fullName.GetOr("Unknown")
              && records[i].department == OrDash(basics[i].department)
              && records[i].role == OrDash(basics[i].role)
    ensures forall i :: 0 <= i < |basics| ==> records[i] == MergeOne(basics[i], DetailsIndex(details))
  {
    var index := DetailsIndex(details);
    seq(|basics|, i requires 0 <= i < |basics| => MergeOne(basics[i], index))
  }

  /**
   * The join: a record takes location and photo from the last detail whose
   * non-empty employee id equals its own id; with no such detail it gets
   * `N/A` and no photo.
   */
  lemma JoinTakesLastMatchingDetail(basics: seq<BasicInfo>, details: seq<DetailInfo>, i: nat)
    requires i < |basics|
    ensures var r := MergeRecords(basics, details)[i];
      var id := RecordId(basics[i]);
      id == "" || LastIndexOf(details, id).None? ==> r.location == "N/A" && r.photo.None?
    ensures var r := MergeRecords(basics, details)[i];
      var id := RecordId(basics[i]);
      id != "" && LastIndexOf(details, id).Some? ==>
        var d := details[LastIndexOf(details, id).value];
        r.location == d.location.GetOr(d.locationId.GetOr("N/A")) && r.photo == d.photo
  {
    var id := RecordId(basics[i]);
    if id != "" {
      DetailsIndexLastWins(details, id);
    }
  }
}
