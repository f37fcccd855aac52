/**
 * The filtering and pagination half of the Daily bot's
 * `fetch_data_science_jobs` tool: keep the jobs whose title contains
 * "Data Science" (case-sensitive), project each to six fields, and return
 * one page of ten using Python's slice rules. Where the job data comes
 * from (the cache or the job-board request) is an input.
 */
module JobSearch {
  import opened Wrappers
  import opened Json

  const PageSize: nat := 10
  const Needle: string := "Data Science"
  const DefaultSearchTerm: Json := JStr("Data Science")

  /** The six fields kept for a job, each with its default. */
  function Project(job: Json): (r: Json)
    requires job.JObj?
    ensures r.JObj? && |r.fields| == 6 && DistinctKeys(r.fields)
    ensures r.fields[0] == ("title", Get(job, "title", JStr("")))
    ensures r.fields[3] == ("remote", Get(job, "remote", JBool(false)))
  {
    JObj([
      ("title", Get(job, "title", JStr(""))),
      ("company_name", Get(job, "company_name", JStr(""))),
      ("location", Get(job, "location", JStr(""))),
      ("remote", Get(job, "remote", JBool(false))),
      ("url", Get(job, "url", JStr(""))),
      ("created_at", Get(job, "created_at", JStr("")))
    ])
  }

  /**
   * The filter's test on one job: None when it raises (the job is not a dict,
   * or its title is not something `in` works on), else whether it is kept.
   */
  function Keep(job: Json): Option<bool> {
    if !job.JObj? then None else PyIn(Needle, Get(job, "title", JStr("")))
  }

  /** The filtered list, or None when some job makes the loop raise. */
  function Filter(jobs: seq<Json>): Option<seq<Json>>
    decreases |jobs|
  {
    if jobs == [] then Some([])
    else
      var last := jobs[|jobs| - 1];
      match Filter(jobs[..|jobs| - 1])
      case None => None
      case Some(f) =>
        match Keep(last)
        case None => None
        case Some(k) => Some(if k then f + [Project(last)] else f)
  }

  /** The filter raises exactly when some job does. */
  lemma {:induction false} FilterRaises(jobs: seq<Json>)
    ensures Filter(jobs).None? <==> exists i :: 0 <= i < |jobs| && Keep(jobs[i]).None?
    decreases |jobs|
  {
    if jobs != [] {
      var init := jobs[..|jobs| - 1];
      FilterRaises(init);
      if Filter(init).None? {
        var i :| 0 <= i < |init| && Keep(init[i]).None?;
        assert jobs[i] == init[i];
      } else if Keep(jobs[|jobs| - 1]).Some? {
        forall i | 0 <= i < |jobs| ensures Keep(jobs[i]).Some? {
          if i < |init| { assert jobs[i] == init[i]; }
        }
      }
    }
  }

  /** Filtering keeps the original order: the result for `a + b` is the result for `a` followed by that for `b`. */
  lemma {:induction false} FilterAppend(a: seq<Json>, b: seq<Json>)
    requires Filter(a).Some? && Filter(b).Some?
    ensures Filter(a + b) == Some(Filter(a).value + Filter(b).value)
    decreases |b|
  {
    if b == [] {
      assert a + b == a;
      assert Filter(a).value + [] == Filter(a).value;
    } else {
      var initB := b[..|b| - 1];
      var last := b[|b| - 1];
      assert (a + b)[..|a + b| - 1] == a + initB;
      assert (a + b)[|a + b| - 1] == last;
      assert Filter(initB).Some? && Keep(last).Some?;
      FilterAppend(a, initB);
      var fa, fib := Filter(a).value, Filter(initB).value;
      if Keep(last) == Some(true) {
        assert Filter(b).value == fib + [Project(last)];
        assert fa + fib + [Project(last)] == fa + (fib + [Project(last)]);
      }
    }
  }

  /** One job alone is kept, with its projection, exactly when its title contains the needle. */
  lemma FilterOne(job: Json)
    requires Keep(job).Some?
    ensures Keep(job) == Some(true) ==> Filter([job]) == Some([Project(job)])
    ensures Keep(job) == Some(false) ==> Filter([job]) == Some([])
  {
    assert [job][..0] == [];
    assert [] + [Project(job)] == [Project(job)];
  }

  /** Either bound of `s[a:b]` after Python's rules: counted from the end when negative, then clamped. */
  function Clip(x: int, n: nat): (r: nat)
    ensures r <= n
    ensures 0 <= x <= n ==> r == x
  {
    if x < 0 then (if x + n < 0 then 0 else x + n) else if x > n then n else x
  }

  /** Python's `s[a:b]` with a step of one. */
  function PySlice<T>(s: seq<T>, a: int, b: int): seq<T> {
    var i := Clip(a, |s|);
    var j := Clip(b, |s|);
    if i < j then s[i..j] else []
  }

  /** `filtered[start:start+10] if start < total else []` with `start = (page - 1) * 10`. */
  function Page(filtered: seq<Json>, page: int): seq<Json> {
    var start := (page - 1) * PageSize;
    if start < |filtered| then PySlice(filtered, start, start + PageSize) else []
  }

  lemma ClipWindow(x: int, w: nat, n: nat)
    ensures Clip(x + w, n) <= Clip(x, n) + w
  {
  }

  /**
   * A page holds at most ten jobs. From page 1 on it is the ten (or fewer)
   * filtered jobs starting at `(page - 1) * 10`, and empty past the end.
   * Page 0 is always empty; a negative page counts back from the end.
   */
  lemma PageSpec(filtered: seq<Json>, page: int)
    ensures |Page(filtered, page)| <= PageSize
    ensures page >= 1 && (page - 1) * PageSize < |filtered| ==>
      var start := (page - 1) * PageSize;
      Page(filtered, page) == filtered[start..if start + PageSize <= |filtered| then start + PageSize else |filtered|]
    ensures (page - 1) * PageSize >= |filtered| ==> Page(filtered, page) == []
    ensures page == 0 ==> Page(filtered, page) == []
  {
    var start := (page - 1) * PageSize;
    ClipWindow(start, PageSize, |filtered|);
  }

  /** The tool's reply: the result object, or the unexpected-error reply when the processing raises. */
  datatype FetchReply = Listed(result: Json) | Unexpected

  /**
   * The job data the processing starts from: the cached value when it is
   * truthy, else the job board's response.
   */
  function JobData(cached: Option<Json>, fetched: Json): Json {
    if cached.Some? && Truthy(cached.value) then cached.value else fetched
  }

  /** `cached_data is not None`: a cache file holding JSON null loads as None too. */
  predicate FromCache(cached: Option<Json>) {
    cached.Some? && !cached.value.JNull?
  }

  /** `all_jobs`: `[]` when the data is JSON null, else its `data` entry (a non-dict raises). */
  function AllJobs(data: Json): Option<Json> {
    if data.JNull? then Some(JArr([]))
    else if data.JObj? then Some(Get(data, "data", JArr([])))
    else None
  }

  /** The reply of `fetch_data_science_jobs` once the job data has been obtained. */
  function Fetch(searchTerm: Option<Json>, page: Option<int>, cached: Option<Json>, fetched: Json): FetchReply {
    var p := page.GetOr(1);
    match AllJobs(JobData(cached, fetched))
    case None => Unexpected
    case Some(all) =>
      match Iter(all)
      case None => Unexpected
      case Some(jobs) =>
        match Filter(jobs)
        case None => Unexpected
        case Some(filtered) =>
          var shown := Page(filtered, p);
          Listed(JObj([
            ("jobs", JArr(shown)),
            ("count", JInt(|shown|)),
            ("total_count", JInt(|filtered|)),
            ("search_term", searchTerm.GetOr(DefaultSearchTerm)),
            ("page", JInt(p)),
            ("from_cache", JBool(FromCache(cached)))
          ]))
  }

  /**
   * The result echoes the search term (default "Data Science") and the page
   * (default 1), and the term does not affect which jobs are listed; the
   * count is the page's length, at most ten, and total_count is the number
   * of filtered jobs.
   */
  lemma FetchResult(searchTerm: Option<Json>, page: Option<int>, cached: Option<Json>, fetched: Json)
    requires Fetch(searchTerm, page, cached, fetched).Listed?
    ensures var r := Fetch(searchTerm, page, cached, fetched).result;
      && r.JObj? && |r.fields| == 6
      && r.fields[3] == ("search_term", searchTerm.GetOr(DefaultSearchTerm))
      && r.fields[4] == ("page", JInt(page.GetOr(1)))
      && r.fields[5] == ("from_cache", JBool(FromCache(cached)))
      && r.fields[1].1.JInt? && 0 <= r.fields[1].1.i <= PageSize
      && r.fields[0].1 == JArr(Page(Filter(Iter(AllJobs(JobData(cached, fetched)).value).value).value, page.GetOr(1)))
      && r.fields[1].1 == JInt(|r.fields[0].1.items|)
    ensures forall t: Option<Json> ::
      (Fetch(t, page, cached, fetched).Listed? &&
       Fetch(t, page, cached, fetched).result.fields[0] == Fetch(searchTerm, page, cached, fetched).result.fields[0])
  {
    var jobs := Iter(AllJobs(JobData(cached, fetched)).value).value;
    PageSpec(Filter(jobs).value, page.GetOr(1));
  }

  /**
   * The processing loop of `fetch_data_science_jobs`: filter and project the
   * jobs, then cut out the page.
   */
  method FetchDataScienceJobs(searchTerm: Option<Json>, page: Option<int>, cached: Option<Json>, fetched: Json)
    returns (reply: FetchReply)
    ensures reply == Fetch(searchTerm, page, cached, fetched)
  {
    var p := page.GetOr(1);
    var data := JobData(cached, fetched);
    var all := AllJobs(data);
    if all.None? {
      return Unexpected;
    }
    var items := Iter(all.value);
    if items.None? {
      return Unexpected;
    }
    var jobs := items.value;
    var filtered: seq<Json> := [];
    for i := 0 to |jobs|
      invariant Filter(jobs[..i]) == Some(filtered)
    {
      assert jobs[..i + 1][..i] == jobs[..i];
      var keep := Keep(jobs[i]);
      if keep.None? {
        FilterStops(jobs, i + 1);
        return Unexpected;
      }
      if keep.value {
        filtered := filtered + [Project(jobs[i])];
      }
    }
    assert jobs[..|jobs|] == jobs;
    var shown := Page(filtered, p);
    reply := Listed(JObj([
      ("jobs", JArr(shown)),
      ("count", JInt(|shown|)),
      ("total_count", JInt(|filtered|)),
      ("search_term", searchTerm.GetOr(DefaultSearchTerm)),
      ("page", JInt(p)),
      ("from_cache", JBool(FromCache(cached)))
    ]));
  }

  /** Once a prefix raises, the whole list raises. */
  lemma {:induction false} FilterStops(jobs: seq<Json>, i: nat)
    requires i <= |jobs| && Filter(jobs[..i]).None?
    ensures Filter(jobs).None?
    decreases |jobs| - i
  {
    if i < |jobs| {
      assert jobs[..i + 1][..i] == jobs[..i];
      FilterStops(jobs, i + 1);
    } else {
      assert jobs[..i] == jobs;
    }
  }
}
