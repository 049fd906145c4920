/** backend/services/experience_service.py: the list query engine as pure
    functions over the table's rows, and create/read/update/delete over a
    store keyed by experience id. */
module ExperienceService {
  import opened Common
  import opened Text
  import opened ExperienceModel
  import Config
  import Validators

  // ---------------------------------------------------------------------
  // Filtering (`_apply_filters`)

  /** The optional filter arguments, as the route hands them over. */
  datatype Filters = Filters(difficulty: Option<string>, offerReceived: Option<string>, search: Option<string>)

  /** `if difficulty:` — an exact match, active for a non-empty argument. */
  predicate MatchesDifficulty(f: Filters, e: Experience) {
    f.difficulty.Some? && f.difficulty.value != "" ==> e.difficulty == f.difficulty.value
  }

  /** `if offer_received is not None:` — any argument other than "true"
      (ignoring case) selects the records without an offer. */
  predicate MatchesOffer(f: Filters, e: Experience) {
    f.offerReceived.Some? ==> e.offerReceived == (Lower(f.offerReceived.value) == "true")
  }

  /** `if search:` — a case-insensitive substring of one of the three text fields. */
  predicate MatchesSearch(f: Filters, e: Experience) {
    f.search.Some? && f.search.value != "" ==>
      ContainsIgnoreCase(e.jobTitle, f.search.value) ||
      ContainsIgnoreCase(e.companyName, f.search.value) ||
      ContainsIgnoreCase(e.experienceDescription, f.search.value)
  }

  /** The filters compose as a conjunction. */
  predicate Matches(f: Filters, e: Experience) {
    MatchesDifficulty(f, e) && MatchesOffer(f, e) && MatchesSearch(f, e)
  }

  /** The rows the filtered query selects, in scan order. */
  function ApplyFilters(rows: seq<Experience>, f: Filters): (r: seq<Experience>)
    ensures |r| <= |rows|
    ensures forall e :: multiset(r)[e] == if Matches(f, e) then multiset(rows)[e] else 0
  {
    if rows == [] then []
    else
      assert rows == [rows[0]] + rows[1..];
      (if Matches(f, rows[0]) then [rows[0]] else []) + ApplyFilters(rows[1..], f)
  }

  /** Only matching rows come out, and every matching row does. */
  lemma FilteredMembership(rows: seq<Experience>, f: Filters, e: Experience)
    ensures e in ApplyFilters(rows, f) <==> e in rows && Matches(f, e)
  {
    var r := ApplyFilters(rows, f);
    assert e in r <==> multiset(r)[e] > 0;
    assert e in rows <==> multiset(rows)[e] > 0;
  }

  /** With no active filter the query keeps every row. */
  lemma NoFiltersKeepAll(rows: seq<Experience>, f: Filters)
    requires f.difficulty.None? || f.difficulty.value == ""
    requires f.offerReceived.None?
    requires f.search.None? || f.search.value == ""
    ensures multiset(ApplyFilters(rows, f)) == multiset(rows)
    ensures |ApplyFilters(rows, f)| == |rows|
  {
    var r := ApplyFilters(rows, f);
    assert forall e :: Matches(f, e);
    assert multiset(r) == multiset(rows);
    assert |multiset(r)| == |r| && |multiset(rows)| == |rows|;
  }

  // ---------------------------------------------------------------------
  // Sorting (`_apply_sorting`)

  datatype SortOrder = DateDesc | DateAsc | ByDifficulty

  /** The `sort_by` argument; an unknown value sorts like `date_desc`. */
  function SortOrderOf(sortBy: string): (o: SortOrder)
    ensures o == DateAsc <==> sortBy == "date_asc"
    ensures o == ByDifficulty <==> sortBy == "difficulty"
    ensures o == DateDesc <==> sortBy != "date_asc" && sortBy != "difficulty"
  {
    if sortBy == "date_desc" then DateDesc
    else if sortBy == "date_asc" then DateAsc
    else if sortBy == "difficulty" then ByDifficulty
    else DateDesc
  }

  /** The `case` expression of the difficulty sort: Easy 1, Medium 2, Hard 3, anything else 4. */
  function DifficultyRank(d: string): (k: int)
    ensures 1 <= k <= 4
    ensures k == 1 <==> d == "Easy"
    ensures k == 2 <==> d == "Medium"
    ensures k == 3 <==> d == "Hard"
  {
    if d == "Easy" then 1
    else if d == "Medium" then 2
    else if d == "Hard" then 3
    else 4
  }

  /** The ascending sort key; a descending date sort orders by the negated timestamp. */
  function SortKey(o: SortOrder, e: Experience): int {
    match o
    case DateDesc => -e.createdAt
    case DateAsc => e.createdAt
    case ByDifficulty => DifficultyRank(e.difficulty)
  }

  /** `s` is non-decreasing in `key`, stated on neighbours. */
  predicate SortedOn<T>(key: T -> int, s: seq<T>) {
    forall i :: 0 < i < |s| ==> key(s[i - 1]) <= key(s[i])
  }

  /** Neighbour order gives order between any two positions. */
  lemma {:induction false} SortedOnPairwise<T>(key: T -> int, s: seq<T>, i: int, j: int)
    requires SortedOn(key, s)
    requires 0 <= i <= j < |s|
    ensures key(s[i]) <= key(s[j])
    decreases j - i
  {
    if i < j {
      SortedOnPairwise(key, s, i, j - 1);
    }
  }

  /** Places `x` before the first element of `s` whose key is not below `key(x)`. */
  function Insert<T>(key: T -> int, x: T, s: seq<T>): (r: seq<T>)
    ensures |r| == |s| + 1
  {
    if s == [] then [x]
    else if key(x) <= key(s[0]) then [x] + s
    else [s[0]] + Insert(key, x, s[1..])
  }

  /** Inserting adds `x` and loses nothing. */
  lemma {:induction false} InsertPerm<T>(key: T -> int, x: T, s: seq<T>)
    ensures multiset(Insert(key, x, s)) == multiset(s) + multiset{x}
  {
    if s != [] {
      assert s == [s[0]] + s[1..];
      if key(x) <= key(s[0]) {
        assert multiset([x] + s) == multiset{x} + multiset(s);
      } else {
        InsertPerm(key, x, s[1..]);
        var rest := Insert(key, x, s[1..]);
        assert multiset([s[0]] + rest) == multiset{s[0]} + multiset(rest);
      }
    }
  }

  /** Inserting into an ordered sequence keeps it ordered. */
  lemma {:induction false} InsertSorted<T>(key: T -> int, x: T, s: seq<T>)
    requires SortedOn(key, s)
    ensures SortedOn(key, Insert(key, x, s))
    ensures Insert(key, x, s)[0] == x || (s != [] && Insert(key, x, s)[0] == s[0])
  {
    if s != [] && key(s[0]) < key(x) {
      var tail := s[1..];
      InsertSorted(key, x, tail);
      var rest := Insert(key, x, tail);
      var r := Insert(key, x, s);
      assert r == [s[0]] + rest;
      forall i | 0 < i < |r| ensures key(r[i - 1]) <= key(r[i]) {
        if i == 1 {
          assert r[1] == rest[0];
          if tail != [] && rest[0] == tail[0] {
            assert tail[0] == s[1];
          }
        } else {
          assert r[i - 1] == rest[i - 2] && r[i] == rest[i - 1];
        }
      }
    }
  }

  /** An insertion sort on `key`; ties keep no promised order. */
  function SortRows<T>(key: T -> int, s: seq<T>): (r: seq<T>)
    ensures SortedOn(key, r)
    ensures multiset(r) == multiset(s)
    ensures |r| == |s|
  {
    if s == [] then []
    else
      assert s == [s[0]] + s[1..];
      var sortedTail := SortRows(key, s[1..]);
      InsertSorted(key, s[0], sortedTail);
      InsertPerm(key, s[0], sortedTail);
      Insert(key, s[0], sortedTail)
  }

  /** The ordered query: a permutation of the rows, monotone in the chosen key. */
  function ApplySorting(rows: seq<Experience>, sortBy: string): (r: seq<Experience>)
    ensures multiset(r) == multiset(rows) && |r| == |rows|
    ensures sortBy == "difficulty" ==>
      forall i, j :: 0 <= i < j < |r| ==> DifficultyRank(r[i].difficulty) <= DifficultyRank(r[j].difficulty)
    ensures sortBy == "date_asc" ==>
      forall i, j :: 0 <= i < j < |r| ==> r[i].createdAt <= r[j].createdAt
    ensures sortBy != "date_asc" && sortBy != "difficulty" ==>
      forall i, j :: 0 <= i < j < |r| ==> r[i].createdAt >= r[j].createdAt
  {
    var o := SortOrderOf(sortBy);
    var key := (e: Experience) => SortKey(o, e);
    var r := SortRows(key, rows);
    assert forall i, j :: 0 <= i < j < |r| ==> SortKey(o, r[i]) <= SortKey(o, r[j]) by {
      forall i, j | 0 <= i < j < |r| ensures SortKey(o, r[i]) <= SortKey(o, r[j]) {
        SortedOnPairwise(key, r, i, j);
      }
    }
    r
  }

  /** An unrecognised `sort_by` orders exactly as `date_desc` does. */
  lemma UnknownSortIsDateDesc(rows: seq<Experience>, sortBy: string)
    requires sortBy != "date_desc" && sortBy != "date_asc" && sortBy != "difficulty"
    ensures ApplySorting(rows, sortBy) == ApplySorting(rows, "date_desc")
  {
  }

  /** Sorting by difficulty puts every Easy record before every Medium one and
      every Medium one before every Hard one. */
  lemma DifficultySortGroups(rows: seq<Experience>, i: int, j: int)
    requires 0 <= i < |rows| && 0 <= j < |rows|
    requires var r := ApplySorting(rows, "difficulty");
      DifficultyRank(r[i].difficulty) < DifficultyRank(r[j].difficulty)
    ensures i < j
  {
  }

  // ---------------------------------------------------------------------
  // Pagination (`query.paginate(page, per_page, error_out=False)`)

  /** `ceil(total / per_page)`, zero for an empty result. */
  function PageCount(total: nat, perPage: int): (n: nat)
    requires perPage >= 1
    ensures n * perPage >= total
    ensures n == 0 || (n - 1) * perPage < total
  {
    var q := (total + perPage - 1) / perPage;
    var m := (total + perPage - 1) % perPage;
    assert total + perPage - 1 == q * perPage + m;
    assert (q - 1) * perPage == q * perPage - perPage;
    q
  }

  /** Position of the first record of page `page`: `(page - 1) * perPage`. */
  function PageStart(page: int, perPage: int): nat
    requires page >= 1 && perPage >= 1
  {
    (page - 1) * perPage
  }

  /** The items of page `page`: positions `(page-1)*per_page` up to `page*per_page`,
      clipped to the end, empty past it. */
  function PageItems(s: seq<Experience>, page: int, perPage: int): (r: seq<Experience>)
    requires page >= 1 && perPage >= 1
    ensures |r| <= perPage
    ensures PageStart(page, perPage) >= |s| ==> r == []
    ensures forall k :: 0 <= k < |r| ==>
      PageStart(page, perPage) + k < |s| && r[k] == s[PageStart(page, perPage) + k]
    ensures PageStart(page, perPage) < |s| ==>
      |r| == if PageStart(page, perPage) + perPage <= |s| then perPage else |s| - PageStart(page, perPage)
  {
    var lo := PageStart(page, perPage);
    if lo >= |s| then []
    else if lo + perPage <= |s| then s[lo..lo + perPage]
    else s[lo..]
  }

  /** The success payload of `get_experiences`. */
  datatype Page = Page(
    experiences: seq<Experience>,
    total: nat,
    page: int,
    perPage: int,
    pages: nat,
    hasNext: bool,
    hasPrev: bool)

  /** The query arguments of `get_experiences`. */
  datatype ListQuery = ListQuery(page: int, perPage: Option<int>, filters: Filters, sortBy: string)

  function EffectivePerPage(perPage: Option<int>): int {
    if perPage.None? then Config.DefaultPageSize else perPage.value
  }

  const PageMessage := "Page must be >= 1"
  const PerPageMessage := "Per page must be <= 100"

  /** `get_experiences` over the rows of the experience table, scanned in `rows` order. */
  function GetExperiences(rows: seq<Experience>, q: ListQuery): (r: Response<Page>)
    requires q.perPage.None? || q.perPage.value >= 1
    ensures q.page < 1 ==> r == Err(400, PageMessage)
    ensures q.page >= 1 && EffectivePerPage(q.perPage) > Config.MaxPageSize ==> r == Err(400, PerPageMessage)
    ensures r.Ok? <==> q.page >= 1 && EffectivePerPage(q.perPage) <= Config.MaxPageSize
    ensures r.Ok? ==> r.status == 200 && r.value.page == q.page && r.value.perPage == EffectivePerPage(q.perPage)
    ensures r.Ok? ==> r.value.total == |ApplyFilters(rows, q.filters)|
    ensures r.Ok? ==> r.value.pages == PageCount(r.value.total, r.value.perPage)
    ensures r.Ok? ==> r.value.hasPrev == (q.page > 1) && r.value.hasNext == (q.page < r.value.pages)
    ensures r.Ok? ==>
      r.value.experiences == PageItems(ApplySorting(ApplyFilters(rows, q.filters), q.sortBy), q.page, r.value.perPage)
  {
    var perPage := EffectivePerPage(q.perPage);
    if q.page < 1 then Err(400, PageMessage)
    else if perPage > Config.MaxPageSize then Err(400, PerPageMessage)
    else
      var selected := ApplyFilters(rows, q.filters);
      var ordered := ApplySorting(selected, q.sortBy);
      var pages := PageCount(|selected|, perPage);
      Ok(200, Page(PageItems(ordered, q.page, perPage), |selected|, q.page, perPage,
                   pages, q.page < pages, q.page > 1))
  }

  /** Every listed record is a row of the table satisfying every active filter. */
  lemma ListedItemsMatch(rows: seq<Experience>, q: ListQuery, e: Experience)
    requires q.perPage.None? || q.perPage.value >= 1
    requires GetExperiences(rows, q).Ok?
    requires e in GetExperiences(rows, q).value.experiences
    ensures e in rows && Matches(q.filters, e)
  {
    var selected := ApplyFilters(rows, q.filters);
    var ordered := ApplySorting(selected, q.sortBy);
    var items := GetExperiences(rows, q).value.experiences;
    var k :| 0 <= k < |items| && items[k] == e;
    assert e in ordered;
    assert multiset(ordered)[e] > 0;
    FilteredMembership(rows, q.filters, e);
  }

  /** Twelve rows, no filters, page 2 of 5: five items, three pages, both neighbours. */
  lemma SecondPageOfTwelve(rows: seq<Experience>, sortBy: string)
    requires |rows| == 12
    ensures var r := GetExperiences(rows, ListQuery(2, Some(5), Filters(None, None, None), sortBy));
      r.Ok? && |r.value.experiences| == 5 && r.value.total == 12 &&
      r.value.pages == 3 && r.value.hasNext && r.value.hasPrev
  {
    NoFiltersKeepAll(rows, Filters(None, None, None));
    var r := GetExperiences(rows, ListQuery(2, Some(5), Filters(None, None, None), sortBy));
    var n := r.value.pages;
    assert n * 5 >= 12 && (n == 0 || (n - 1) * 5 < 12);
    assert n == 3;
  }

  /** The first page of an empty table: no items, no pages, no neighbours. */
  lemma FirstPageOfEmptyTable(q: ListQuery)
    requires q.page == 1 && q.perPage.None?
    ensures var r := GetExperiences([], q);
      r.Ok? && r.value.total == 0 && r.value.pages == 0 &&
      r.value.experiences == [] && !r.value.hasNext && !r.value.hasPrev
  {
    var r := GetExperiences([], q);
    assert r.value.pages * 10 >= 0;
  }
}

/** The create/read/update/delete half of backend/services/experience_service.py. */
module ExperienceStore {
  import opened Common
  import opened ExperienceModel
  import Config
  import Validators

  const NotFoundMessage := "Experience not found"
  const InvalidDateMessage := "Invalid date format. Use YYYY-MM-DD"
  const DateOrderMessage := "Final decision date cannot be before application date"
  const ForbiddenEditMessage := "Forbidden: You can only edit your own experiences"
  const ForbiddenDeleteMessage := "Forbidden: You can only delete your own experiences"
  const CreatedMessage := "Experience created successfully"
  const UpdatedMessage := "Experience updated successfully"
  const DeletedMessage := "Experience deleted successfully"
  const DatabaseErrorPrefix := "Database error: "

  /** The `{message, experience}` body of a successful create or update. */
  datatype Saved = Saved(message: string, experience: Experience)

  /** An update body after the difficulty check and date parsing, or the 400 message. */
  datatype Prepared = PatchOk(patch: Patch, offerNotBool: bool) | PatchErr(error: string)

  /** Lines 163-176 of `update_experience`: an invalid difficulty, then an
      unparseable date, fail; otherwise the present keys become a patch. The
      other text fields are not checked. A boolean `offer_received`, or a
      number equal to 0 or 1, which the Boolean column stores as false or true,
      becomes the patch's value. Any other value is carried along as a flag:
      the database refuses it only at commit. */
  function PreparePatch(data: Validators.Payload, parse: string -> Option<int>): (r: Prepared)
    ensures data.difficulty.Some? && data.difficulty.value !in Config.ValidDifficulties ==>
      r == PatchErr(Validators.DifficultyMessage)
    ensures r.PatchErr? <==>
      (data.difficulty.Some? && data.difficulty.value !in Config.ValidDifficulties) ||
      (data.applicationDate.Some? && parse(data.applicationDate.value).None?) ||
      (data.finalDecisionDate.Some? && parse(data.finalDecisionDate.value).None?)
    ensures r.PatchErr? && (data.difficulty.None? || data.difficulty.value in Config.ValidDifficulties) ==>
      r.error == InvalidDateMessage
    ensures r.PatchOk? ==>
      r.patch.jobTitle == data.jobTitle && r.patch.companyName == data.companyName &&
      r.patch.experienceDescription == data.experienceDescription &&
      r.patch.difficulty == data.difficulty &&
      (r.patch.applicationDate.Some? <==> data.applicationDate.Some?) &&
      (r.patch.applicationDate.Some? ==> parse(data.applicationDate.value) == r.patch.applicationDate) &&
      (r.patch.finalDecisionDate.Some? <==> data.finalDecisionDate.Some?) &&
      (r.patch.finalDecisionDate.Some? ==> parse(data.finalDecisionDate.value) == r.patch.finalDecisionDate) &&
      (r.patch.offerReceived.Some? <==> data.offerReceived.Some? && !data.offerReceived.value.NonBool?) &&
      (r.patch.offerReceived.Some? ==> data.offerReceived.value.b == r.patch.offerReceived.value) &&
      (r.offerNotBool <==> data.offerReceived == Some(Validators.NonBool))
  {
    if data.difficulty.Some? && data.difficulty.value !in Config.ValidDifficulties then
      PatchErr(Validators.DifficultyMessage)
    else if data.applicationDate.Some? && parse(data.applicationDate.value).None? then
      PatchErr(InvalidDateMessage)
    else if data.finalDecisionDate.Some? && parse(data.finalDecisionDate.value).None? then
      PatchErr(InvalidDateMessage)
    else
      var app := if data.applicationDate.Some? then parse(data.applicationDate.value) else None;
      var fin := if data.finalDecisionDate.Some? then parse(data.finalDecisionDate.value) else None;
      var offer := if data.offerReceived.Some? && !data.offerReceived.value.NonBool?
                   then Some(data.offerReceived.value.b) else None;
      PatchOk(Patch(data.jobTitle, data.companyName, data.experienceDescription,
                    data.difficulty, offer, app, fin),
              data.offerReceived == Some(Validators.NonBool))
  }

  /** The date rule is checked on the merged record: a body that moves only the
      application date past the stored decision date is refused. */
  lemma OneDateAgainstStoredOther(e: Experience, s: string, parse: string -> Option<int>)
    requires parse(s).Some? && parse(s).value > e.finalDecisionDate
    ensures var data := Validators.Payload(None, None, None, None, None, Some(s), None);
      var prepared := PreparePatch(data, parse);
      prepared.PatchOk? &&
      UpdateFromDict(e, prepared.patch).finalDecisionDate < UpdateFromDict(e, prepared.patch).applicationDate
  {
  }

  /** An `offer_received` of 0 or 1 is refused on create and stored as a
      boolean on update. */
  lemma NumericOfferRefusedThenStored(data: Validators.Payload, b: bool, parse: string -> Option<int>)
    requires Validators.AllPresent(data) && Validators.ValidateExperienceData(data) == Fail(Validators.OfferMessage)
    requires data.offerReceived == Some(Validators.Num01(b))
    requires parse(data.applicationDate.value).Some? && parse(data.finalDecisionDate.value).Some?
    ensures var prepared := PreparePatch(data, parse);
      prepared.PatchOk? && !prepared.offerNotBool && prepared.patch.offerReceived == Some(b)
  {
    assert Validators.ValidateExperienceData(data) != Fail(Validators.DifficultyMessage);
  }

  /** The experience table. Ids come from an autoincrement counter. */
  class ExperienceTable {
    var experiences: map<int, Experience>
    var nextId: int

    /** Keys are the records' ids, below the counter; every stored record has
        its decision on or after its application. */
    ghost predicate Valid()
      reads this
    {
      nextId >= 1 &&
      forall k :: k in experiences ==>
        1 <= k < nextId && experiences[k].id == k &&
        experiences[k].applicationDate <= experiences[k].finalDecisionDate
    }

    constructor ()
      ensures Valid() && experiences == map[] && nextId == 1
    {
      experiences := map[];
      nextId := 1;
    }

    /** `get_experience_by_id`. */
    function GetExperienceById(id: int): (r: Response<Experience>)
      reads this
      ensures r.Ok? <==> id in experiences
      ensures r.Ok? ==> r.status == 200 && r.value == experiences[id]
      ensures r.Err? ==> r == Err(404, NotFoundMessage)
    {
      if id in experiences then Ok(200, experiences[id]) else Err(404, NotFoundMessage)
    }

    /** `create_experience`: validate, parse both dates, check their order,
        then insert one record authored by `userId` and stamped `now`. */
    method CreateExperience(userId: int, data: Validators.Payload, parse: string -> Option<int>, now: int)
      returns (r: Response<Saved>)
      requires Valid()
      modifies this
      ensures Valid()
      ensures Validators.ValidateExperienceData(data).Fail? ==>
        r == Err(400, Validators.ValidateExperienceData(data).message)
      ensures (Validators.ValidateExperienceData(data).Pass? &&
               (parse(data.applicationDate.value).None? || parse(data.finalDecisionDate.value).None?)) ==>
        r == Err(400, InvalidDateMessage)
      ensures (Validators.ValidateExperienceData(data).Pass? &&
               parse(data.applicationDate.value).Some? && parse(data.finalDecisionDate.value).Some? &&
               parse(data.finalDecisionDate.value).value < parse(data.applicationDate.value).value) ==>
        r == Err(400, DateOrderMessage)
      ensures r.Err? ==> experiences == old(experiences) && nextId == old(nextId)
      ensures r.Ok? <==>
        Validators.ValidateExperienceData(data).Pass? &&
        parse(data.applicationDate.value).Some? && parse(data.finalDecisionDate.value).Some? &&
        parse(data.finalDecisionDate.value).value >= parse(data.applicationDate.value).value
      ensures r.Ok? ==>
        r.status == 201 && r.value.message == CreatedMessage &&
        r.value.experience == Experience(old(nextId), data.jobTitle.value, data.companyName.value,
          data.experienceDescription.value, data.difficulty.value, data.offerReceived.value.b,
          parse(data.applicationDate.value).value, parse(data.finalDecisionDate.value).value,
          userId, now) &&
        old(nextId) !in old(experiences) &&
        experiences == old(experiences)[old(nextId) := r.value.experience]
    {
      var check := Validators.ValidateExperienceData(data);
      if check.Fail? {
        return Err(400, check.message);
      }
      var app := parse(data.applicationDate.value);
      var fin := parse(data.finalDecisionDate.value);
      if app.None? || fin.None? {
        return Err(400, InvalidDateMessage);
      }
      if fin.value < app.value {
        return Err(400, DateOrderMessage);
      }
      var e := Experience(nextId, data.jobTitle.value, data.companyName.value,
        data.experienceDescription.value, data.difficulty.value, data.offerReceived.value.b,
        app.value, fin.value, userId, now);
      experiences := experiences[nextId := e];
      nextId := nextId + 1;
      r := Ok(201, Saved(CreatedMessage, e));
    }

    /** `update_experience`: 404, then 403, then the body's checks, then the
        date rule on the merged record; only a success changes the table. */
    method UpdateExperience(id: int, userId: int, data: Validators.Payload, parse: string -> Option<int>)
      returns (r: Response<Saved>)
      requires Valid()
      modifies this
      ensures Valid()
      ensures nextId == old(nextId)
      ensures id !in old(experiences) ==> r == Err(404, NotFoundMessage)
      ensures id in old(experiences) && old(experiences)[id].userId != userId ==>
        r == Err(403, ForbiddenEditMessage)
      ensures (id in old(experiences) && old(experiences)[id].userId == userId &&
               PreparePatch(data, parse).PatchErr?) ==>
        r == Err(400, PreparePatch(data, parse).error)
      ensures (id in old(experiences) && old(experiences)[id].userId == userId &&
               PreparePatch(data, parse).PatchOk?) ==>
        var merged := UpdateFromDict(old(experiences)[id], PreparePatch(data, parse).patch);
        (merged.finalDecisionDate < merged.applicationDate ==> r == Err(400, DateOrderMessage)) &&
        (merged.finalDecisionDate >= merged.applicationDate && PreparePatch(data, parse).offerNotBool ==>
           r.Err? && r.status == 500 && DatabaseErrorPrefix <= r.error) &&
        (merged.finalDecisionDate >= merged.applicationDate && !PreparePatch(data, parse).offerNotBool ==>
           r == Ok(200, Saved(UpdatedMessage, merged)) && experiences == old(experiences)[id := merged])
      ensures r.Err? ==> experiences == old(experiences)
    {
      if id !in experiences {
        return Err(404, NotFoundMessage);
      }
      var current := experiences[id];
      if current.userId != userId {
        return Err(403, ForbiddenEditMessage);
      }
      var prepared := PreparePatch(data, parse);
      if prepared.PatchErr? {
        return Err(400, prepared.error);
      }
      var merged := UpdateFromDict(current, prepared.patch);
      if merged.finalDecisionDate < merged.applicationDate {
        return Err(400, DateOrderMessage);
      }
      if prepared.offerNotBool {
        // The Boolean column refuses the value at commit; the session rolls back.
        return Err(500, DatabaseErrorPrefix + "Not a boolean value");
      }
      experiences := experiences[id := merged];
      r := Ok(200, Saved(UpdatedMessage, merged));
    }

    /** `delete_experience`: 404, then 403; a success removes exactly that id. */
    method DeleteExperience(id: int, userId: int) returns (r: Response<string>)
      requires Valid()
      modifies this
      ensures Valid()
      ensures nextId == old(nextId)
      ensures id !in old(experiences) ==> r == Err(404, NotFoundMessage)
      ensures id in old(experiences) && old(experiences)[id].userId != userId ==>
        r == Err(403, ForbiddenDeleteMessage)
      ensures r.Ok? <==> id in old(experiences) && old(experiences)[id].userId == userId
      ensures r.Ok? ==> r == Ok(200, DeletedMessage) && experiences == old(experiences) - {id}
      ensures r.Err? ==> experiences == old(experiences)
    {
      if id !in experiences {
        return Err(404, NotFoundMessage);
      }
      if experiences[id].userId != userId {
        return Err(403, ForbiddenDeleteMessage);
      }
      experiences := experiences - {id};
      r := Ok(200, DeletedMessage);
    }
  }
}
