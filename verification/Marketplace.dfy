/** Recipe search: merging the catalogs, scoring, ranking and paging (internal/marketplace/search.go,
    internal/marketplace/service.go). Scores are reals. */
module Marketplace {
  import opened Ast
  import opened StableSort
  import Text

  datatype Template = Template(id: string, name: string, description: string, category: string,
                               tags: seq<string>, source: string)

  datatype SearchResult = SearchResult(template: Template, score: real)

  // ---- Matching ----

  /** What case folding makes of a character: ASCII letters and the two others that fold with one, the long s
      and the Kelvin sign. The dotted capital I, which lower case takes to i, folds with nothing. */
  function FoldChar(c: char): char {
    if 'A' <= c <= 'Z' then (c as int + 32) as char
    else if c == '\U{017F}' then 's'
    else if c == '\U{212A}' then 'k'
    else c
  }

  predicate EqualFold(a: string, b: string) {
    |a| == |b| && forall i :: 0 <= i < |a| ==> FoldChar(a[i]) == FoldChar(b[i])
  }

  /** The first tag that equals or contains the query decides. */
  function TagScore(tags: seq<string>, q: string): real {
    if tags == [] then 0.0
    else if EqualFold(tags[0], q) then 0.7
    else if Text.Contains(Text.Lower(tags[0]), q) then 0.5
    else TagScore(tags[1..], q)
  }

  function FuzzyScore(t: Template, query: string): real {
    var q := Text.Lower(query);
    var name, desc, id := Text.Lower(t.name), Text.Lower(t.description), Text.Lower(t.id);
    if name == q || id == q then 1.0
    else if Text.Contains(name, q) || Text.Contains(id, q) then 0.8
    else if Text.Contains(desc, q) then 0.6
    else if TagScore(t.tags, q) != 0.0 then TagScore(t.tags, q)
    else if Text.Contains(Text.Lower(t.category), q) then 0.4
    else 0.0
  }

  ghost predicate Mentions(text: string, query: string) { Text.Contains(Text.Lower(text), Text.Lower(query)) }

  ghost predicate Named(t: Template, query: string) {
    Text.Lower(t.name) == Text.Lower(query) || Text.Lower(t.id) == Text.Lower(query)
  }

  ghost predicate TagMeets(tag: string, query: string) { EqualFold(tag, Text.Lower(query)) || Mentions(tag, query) }

  /** Tag i is the first that meets the query. */
  ghost predicate FirstTag(tags: seq<string>, query: string, i: int) {
    0 <= i < |tags| && TagMeets(tags[i], query) && forall j :: 0 <= j < i ==> !TagMeets(tags[j], query)
  }

  lemma {:induction false} TagScoreIs(tags: seq<string>, query: string, i: int)
    ensures FirstTag(tags, query, i) ==>
              TagScore(tags, Text.Lower(query)) == if EqualFold(tags[i], Text.Lower(query)) then 0.7 else 0.5
    ensures (forall j :: 0 <= j < |tags| ==> !TagMeets(tags[j], query)) ==> TagScore(tags, Text.Lower(query)) == 0.0
  {
    hide EqualFold, Text.Contains, Text.Lower;
    if tags != [] && !TagMeets(tags[0], query) {
      var rest := tags[1..];
      assert forall j :: 0 <= j < |rest| ==> rest[j] == tags[j + 1];
      if FirstTag(tags, query, i) { assert FirstTag(rest, query, i - 1); }
      TagScoreIs(rest, query, i - 1);
    }
  }

  lemma {:induction false} SomeFirst(tags: seq<string>, query: string, k: nat) returns (i: int)
    requires k < |tags| && TagMeets(tags[k], query)
    ensures FirstTag(tags, query, i)
  {
    hide TagMeets;
    if j :| 0 <= j < k && TagMeets(tags[j], query) { i := SomeFirst(tags, query, j); } else { i := k; }
  }

  /** What each score stands for: the query is the name or the identifier, is in one of these, in the
      description, or the first tag that meets it is the query or holds it, or it is in the category. */
  lemma ScoreMeans(t: Template, query: string)
    ensures var near := Mentions(t.name, query) || Mentions(t.id, query);
            var met := exists i :: FirstTag(t.tags, query, i);
            var far := !Named(t, query) && !near && !Mentions(t.description, query);
            && (FuzzyScore(t, query) == 1.0 <==> Named(t, query))
            && (FuzzyScore(t, query) == 0.8 <==> !Named(t, query) && near)
            && (FuzzyScore(t, query) == 0.6 <==> !Named(t, query) && !near && Mentions(t.description, query))
            && (FuzzyScore(t, query) == 0.7 <==>
                  far && exists i :: FirstTag(t.tags, query, i) && EqualFold(t.tags[i], Text.Lower(query)))
            && (FuzzyScore(t, query) == 0.5 <==>
                  far && exists i :: FirstTag(t.tags, query, i) && !EqualFold(t.tags[i], Text.Lower(query)))
            && (FuzzyScore(t, query) == 0.4 <==> far && !met && Mentions(t.category, query))
            && (FuzzyScore(t, query) == 0.0 <==> far && !met && !Mentions(t.category, query))
  {
    hide EqualFold, Text.Contains, Text.Lower, TagScore, FirstTag, TagMeets;
    if i :| FirstTag(t.tags, query, i) {
      forall j | FirstTag(t.tags, query, j) ensures j == i { OneFirst(t.tags, query, i, j); }
      TagScoreIs(t.tags, query, i);
    } else {
      if k :| 0 <= k < |t.tags| && TagMeets(t.tags[k], query) { var i := SomeFirst(t.tags, query, k); }
      TagScoreIs(t.tags, query, 0);
    }
  }

  lemma OneFirst(tags: seq<string>, query: string, i: int, j: int)
    requires FirstTag(tags, query, i) && FirstTag(tags, query, j)
    ensures i == j
  {
    hide TagMeets;
  }

  /** A description that holds the query as well takes a template that is tagged with it down. */
  lemma DescriptionHidesTag(t: Template, query: string, description: string)
    requires FuzzyScore(t, query) == 0.7 && Mentions(description, query)
    ensures FuzzyScore(t.(description := description), query) == 0.6
  {
    hide Text.Contains, Text.Lower, EqualFold, FuzzyScore;
    ScoreMeans(t, query);
    ScoreMeans(t.(description := description), query);
  }

  ghost predicate AllTagsPresent(templateTags: seq<string>, requested: seq<string>) {
    forall r :: r in requested ==> exists t :: t in templateTags && Text.Lower(t) == Text.Lower(r)
  }

  method HasAllTags(templateTags: seq<string>, requested: seq<string>) returns (all: bool)
    ensures all <==> AllTagsPresent(templateTags, requested)
  {
    var tagSet: set<string> := {};
    for i := 0 to |templateTags|
      invariant tagSet == set j | 0 <= j < i :: Text.Lower(templateTags[j])
    {
      tagSet := tagSet + {Text.Lower(templateTags[i])};
    }
    assert forall x :: x in tagSet <==> exists t :: t in templateTags && Text.Lower(t) == x;
    for i := 0 to |requested|
      invariant forall j :: 0 <= j < i ==> Text.Lower(requested[j]) in tagSet
    {
      if Text.Lower(requested[i]) !in tagSet {
        assert requested[i] in requested;
        return false;
      }
    }
    all := true;
  }

  /** The score of a template that passes the filters; none if it does not. */
  ghost function ScoreOf(t: Template, query: string, category: string, tags: seq<string>): Option<real> {
    if category != "" && !EqualFold(t.category, category) then None
    else if tags != [] && !AllTagsPresent(t.tags, tags) then None
    else if query == "" then Some(1.0)
    else if FuzzyScore(t, query) == 0.0 then None
    else Some(FuzzyScore(t, query))
  }

  /** A template is found exactly if it is in the category, has all the tags, and the query is somewhere in it. */
  lemma FoundMeans(t: Template, query: string, category: string, tags: seq<string>, score: real)
    ensures ScoreOf(t, query, category, tags) == Some(score) <==>
              && (category == "" || EqualFold(t.category, category))
              && (forall r :: r in tags ==> exists u :: u in t.tags && Text.Lower(u) == Text.Lower(r))
              && score == (if query == "" then 1.0 else FuzzyScore(t, query)) && score != 0.0
  {
    hide FuzzyScore, EqualFold, Text.Lower;
  }

  /** The matching templates in catalog order. */
  ghost function Matching(ts: seq<Template>, query: string, category: string, tags: seq<string>): seq<SearchResult> {
    if ts == [] then []
    else
      Matching(ts[..|ts| - 1], query, category, tags) +
      match ScoreOf(ts[|ts| - 1], query, category, tags)
      case Some(s) => [SearchResult(ts[|ts| - 1], s)]
      case None => []
  }

  lemma {:induction false} MatchingMembers(ts: seq<Template>, query: string, category: string, tags: seq<string>,
                                           r: SearchResult)
    ensures r in Matching(ts, query, category, tags) <==>
              r.template in ts && ScoreOf(r.template, query, category, tags) == Some(r.score)
  {
    hide ScoreOf;
    if ts != [] {
      MatchingMembers(ts[..|ts| - 1], query, category, tags, r);
      assert ts == ts[..|ts| - 1] + [ts[|ts| - 1]];
    }
  }

  // ---- Ranking ----

  /** Sorting by ascending negated score is sorting by descending score. */
  function Descending(r: SearchResult): real { -r.score }

  /** An element x placed at j into a list. */
  function Placed(s: seq<SearchResult>, x: SearchResult, j: nat): (r: seq<SearchResult>)
    requires j <= |s|
    ensures |r| == |s| + 1 && r[j] == x && (j > 0 ==> r[j - 1] == s[j - 1])
  {
    s[..j] + [x] + s[j..]
  }

  lemma PlacedLower(s: seq<SearchResult>, x: SearchResult, j: nat)
    requires 0 < j <= |s|
    ensures Placed(s, x, j)[j := s[j - 1]][j - 1 := x] == Placed(s, x, j - 1)
  {
  }

  /** Swapping the elements at j - 1 and j. */
  method SwapDown(a: array<SearchResult>, i: nat, j: nat, ghost s: seq<SearchResult>, ghost x: SearchResult)
    requires 0 < j <= i < a.Length && |s| == i && a[..i + 1] == Placed(s, x, j)
    modifies a
    ensures a[..i + 1] == Placed(s, x, j - 1) && a[i + 1..] == old(a[i + 1..])
  {
    hide Placed;
    PlacedLower(s, x, j);
    ghost var before := a[..i + 1];
    assert before[j] == a[j] && before[j - 1] == a[j - 1];
    a[j], a[j - 1] := a[j - 1], a[j];
    assert a[..i + 1] == before[j := s[j - 1]][j - 1 := x];
  }

  /** Moves the element at i in front of those it outscores. */
  method SiftDown(a: array<SearchResult>, i: nat)
    requires i < a.Length
    modifies a
    ensures a[..i + 1] == Insert(Descending, old(a[..i]), old(a[i]))
    ensures a[i + 1..] == old(a[i + 1..])
  {
    hide Placed, Insert;
    ghost var s, x := a[..i], a[i];
    var j := i;
    PlacedLast(s, x);
    assert a[..i + 1] == s + [x];
    while j > 0 && a[j].score > a[j - 1].score
      invariant 0 <= j <= i
      invariant a[..i + 1] == Placed(s, x, j) && a[i + 1..] == old(a[i + 1..])
      invariant forall k :: j <= k < i ==> Descending(s[k]) > Descending(x)
    {
      assert a[j] == a[..i + 1][j] && a[j - 1] == a[..i + 1][j - 1];
      SwapDown(a, i, j, s, x);
      j := j - 1;
    }
    assert a[j] == a[..i + 1][j] && (j > 0 ==> a[j - 1] == a[..i + 1][j - 1]);
    PlacedIsInserted(s, x, j);
  }

  lemma PlacedLast(s: seq<SearchResult>, x: SearchResult)
    ensures Placed(s, x, |s|) == s + [x]
  {
  }

  lemma PlacedIsInserted(s: seq<SearchResult>, x: SearchResult, j: nat)
    requires j <= |s| && forall k :: j <= k < |s| ==> Descending(s[k]) > Descending(x)
    requires j > 0 ==> Descending(s[j - 1]) <= Descending(x)
    ensures Placed(s, x, j) == Insert(Descending, s, x)
  {
    hide Insert;
    InsertAt(Descending, s, x, j);
  }

  /** The insertion sort by adjacent swaps sorts in place, and stably. */
  method SortByScore(a: array<SearchResult>)
    modifies a
    ensures a[..] == Sort(Descending, old(a[..]))
  {
    hide Insert;
    ghost var was := a[..];
    SortOfOne(was);
    var i := 1;
    while i < a.Length
      invariant 1 <= i <= a.Length || a.Length == 0
      invariant a.Length > 0 ==> a[i..] == was[i..] && a[..i] == Sort(Descending, was[..i])
    {
      assert a[i] == a[i..][0] == was[i];
      assert was[..i + 1][..i] == was[..i];
      SiftDown(a, i);
      assert a[i + 1..] == was[i..][1..] == was[i + 1..];
      i := i + 1;
    }
    assert a[..] == a[..a.Length] && was[..a.Length] == was;
  }

  lemma SortOfOne(s: seq<SearchResult>)
    ensures s != [] ==> Sort(Descending, s[..1]) == s[..1]
    ensures s == [] ==> Sort(Descending, s) == s
  {
    if s != [] { assert s[..1] == [s[0]] && [s[0]][..0] == []; }
  }

  method SearchTemplates(ts: seq<Template>, query: string, category: string, tags: seq<string>)
      returns (results: seq<SearchResult>)
    ensures results == Sort(Descending, Matching(ts, query, category, tags))
  {
    hide Sort, FuzzyScore, AllTagsPresent, EqualFold;
    var found: seq<SearchResult> := [];
    for i := 0 to |ts|
      invariant found == Matching(ts[..i], query, category, tags)
    {
      var t := ts[i];
      assert ts[..i + 1][..i] == ts[..i];
      if category != "" && !EqualFold(t.category, category) { continue; }
      if |tags| > 0 {
        var all := HasAllTags(t.tags, tags);
        if !all { continue; }
      }
      var score := 1.0;
      if query != "" {
        score := FuzzyScore(t, query);
        if score == 0.0 { continue; }
      }
      found := found + [SearchResult(t, score)];
    }
    assert ts[..|ts|] == ts;
    var a := new SearchResult[|found|](i requires 0 <= i < |found| => found[i]);
    assert a[..] == found;
    SortByScore(a);
    results := a[..];
  }

  /** The answer holds exactly the matching templates, best first, equal scores in catalog order. */
  lemma SearchIsRanked(ts: seq<Template>, query: string, category: string, tags: seq<string>)
    ensures var found := Matching(ts, query, category, tags);
            var results := Sort(Descending, found);
            && multiset(results) == multiset(found)
            && (forall i, j :: 0 <= i < j < |results| ==> results[i].score >= results[j].score)
            && SameClasses(Descending, results, found)
            && (forall r :: r in results <==>
                  r.template in ts && ScoreOf(r.template, query, category, tags) == Some(r.score))
  {
    hide Sort, Class, ScoreOf;
    var found := Matching(ts, query, category, tags);
    SortCorrect(Descending, found);
    var results := Sort(Descending, found);
    forall r ensures r in results <==> r.template in ts && ScoreOf(r.template, query, category, tags) == Some(r.score) {
      MatchingMembers(ts, query, category, tags, r);
      assert r in results <==> r in multiset(results);
    }
    forall i, j | 0 <= i < j < |results| ensures results[i].score >= results[j].score {
      assert Descending(results[i]) <= Descending(results[j]);
    }
  }

  // ---- Merging the catalogs ----

  ghost function Ids(ts: seq<Template>): set<string> { set t | t in ts :: t.id }

  /** Remote entries whose id is not taken yet, in order. */
  ghost function Unseen(known: set<string>, entries: seq<Template>): seq<Template> {
    if entries == [] then []
    else
      var rest := Unseen(known, entries[..|entries| - 1]);
      var e := entries[|entries| - 1];
      if e.id in known || e.id in Ids(rest) then rest else rest + [e]
  }

  method AllTemplates(embedded: seq<Template>, remote: seq<Template>, stale: bool) returns (all: seq<Template>)
    ensures all == embedded + if stale then [] else Unseen(Ids(embedded), remote)
  {
    all := [];
    var seen: set<string> := {};
    for i := 0 to |embedded|
      invariant all == embedded[..i] && seen == Ids(all)
    {
      seen := seen + {embedded[i].id};
      all := all + [embedded[i]];
    }
    assert all == embedded;
    if !stale {
      for i := 0 to |remote|
        invariant all == embedded + Unseen(Ids(embedded), remote[..i])
        invariant seen == Ids(embedded) + Ids(Unseen(Ids(embedded), remote[..i]))
      {
        assert remote[..i + 1][..i] == remote[..i];
        if remote[i].id !in seen {
          seen := seen + {remote[i].id};
          all := all + [remote[i]];
        }
      }
      assert remote[..|remote|] == remote;
    }
  }

  /** Embedded templates win, no remote id appears twice, and no id is dropped. */
  lemma {:induction false} MergeKeepsIds(known: set<string>, entries: seq<Template>)
    ensures Ids(Unseen(known, entries)) == Ids(entries) - known
    ensures forall i, j :: 0 <= i < j < |Unseen(known, entries)| ==>
              Unseen(known, entries)[i].id != Unseen(known, entries)[j].id
    ensures forall t :: t in Unseen(known, entries) ==> t in entries
  {
    if entries != [] {
      var init, e := entries[..|entries| - 1], entries[|entries| - 1];
      assert entries == init + [e];
      MergeKeepsIds(known, init);
      var rest := Unseen(known, init);
      assert Ids(entries) == Ids(init) + {e.id};
      assert Ids(rest + [e]) == Ids(rest) + {e.id};
    }
  }

  // ---- Paging ----

  datatype ListParams = ListParams(page: int, perPage: int)

  function NormalizeParams(p: ListParams): ListParams {
    ListParams(if p.page < 1 then 1 else p.page,
               if p.perPage < 1 then 20 else if p.perPage > 100 then 100 else p.perPage)
  }

  datatype ListResult = ListResult(recipes: seq<SearchResult>, total: int, page: int, perPage: int, totalPages: int)

  function TotalPages(total: nat, perPage: int): int
    requires perPage >= 1
  {
    if total == 0 then 1 else (total + perPage - 1) / perPage
  }

  /** At most perPage results from a position on. */
  function ResultsFrom(results: seq<SearchResult>, start: nat, perPage: int): seq<SearchResult>
    requires perPage >= 1
  {
    if start >= |results| then []
    else results[start..if start + perPage > |results| then |results| else start + perPage]
  }

  /** The results that belong on a page. */
  function PageOf(results: seq<SearchResult>, page: int, perPage: int): seq<SearchResult>
    requires page >= 1 && perPage >= 1
  {
    ResultsFrom(results, (page - 1) * perPage, perPage)
  }

  /** A page whose first position does not fit an int64 is outside what the arithmetic can address. */
  predicate Addressable(page: int, perPage: int) { (page - 1) * perPage <= Text.MAX_INT64 }

  function Answer(shown: seq<SearchResult>, results: seq<SearchResult>, p: ListParams): ListResult
    requires p.perPage >= 1
  {
    ListResult(shown, |results|, p.page, p.perPage, TotalPages(|results|, p.perPage))
  }

  /** Where the arithmetic puts the start of a page. */
  function StartOf(p: ListParams): int { Text.Wrap64((p.page - 1) * p.perPage) }

  /** One page of a ranking. None stands for the run-time error of slicing from a negative position. */
  method Paginate(results: seq<SearchResult>, params: ListParams) returns (r: Option<ListResult>)
    requires |results| <= Text.MAX_INT64 - 100 && params.page <= Text.MAX_INT64
    ensures var p := NormalizeParams(params);
            r == if StartOf(p) < 0 then None
                 else Some(Answer(ResultsFrom(results, StartOf(p), p.perPage), results, p))
  {
    hide Text.Wrap64;
    var p := NormalizeParams(params);
    var total := |results|;
    var totalPages := (total + p.perPage - 1) / p.perPage;
    if totalPages == 0 { totalPages := 1; }
    PagesOfNone(total, p.perPage);
    var start := Text.Wrap64((p.page - 1) * p.perPage);
    if start >= total {
      return Some(ListResult([], total, p.page, p.perPage, totalPages));
    }
    if start < 0 { return None; }
    var end := start + p.perPage;
    if end > total { end := total; }
    return Some(ListResult(results[start..end], total, p.page, p.perPage, totalPages));
  }

  lemma StartNotNegative(p: ListParams)
    requires p.page >= 1 && p.perPage >= 1
    ensures (p.page - 1) * p.perPage >= 0
    ensures Addressable(p.page, p.perPage) ==> StartOf(p) == (p.page - 1) * p.perPage
  {
  }

  /** The answer is the right page exactly if the page can be addressed, or its wrapped start happens to be
      behind all results, where the right page is empty too. */
  lemma RightPageExactly(results: seq<SearchResult>, p: ListParams)
    requires p.page >= 1 && p.perPage >= 1 && |results| <= Text.MAX_INT64
    ensures (StartOf(p) >= 0 &&
             ResultsFrom(results, StartOf(p), p.perPage) == PageOf(results, p.page, p.perPage)) <==>
            Addressable(p.page, p.perPage) || StartOf(p) >= |results|
  {
    hide StartOf;
    StartNotNegative(p);
    assert !Addressable(p.page, p.perPage) ==> PageOf(results, p.page, p.perPage) == [];
  }

  lemma PagesOfNone(total: nat, perPage: int)
    requires perPage >= 1
    ensures (total + perPage - 1) / perPage == 0 <==> total == 0
  {
  }

  /** The first n pages, one after the other. */
  ghost function FirstPages(results: seq<SearchResult>, perPage: int, n: nat): seq<SearchResult>
    requires perPage >= 1
  {
    if n == 0 then [] else FirstPages(results, perPage, n - 1) + PageOf(results, n, perPage)
  }

  lemma {:induction false} FirstPagesPrefix(results: seq<SearchResult>, perPage: int, n: nat)
    requires perPage >= 1
    ensures FirstPages(results, perPage, n) == if n * perPage >= |results| then results else results[..n * perPage]
  {
    if n > 0 {
      FirstPagesPrefix(results, perPage, n - 1);
      assert n * perPage == (n - 1) * perPage + perPage;
    }
  }

  /** Pages 1 to TotalPages, joined, are the results: no gap, no overlap. */
  lemma PagesCoverResults(results: seq<SearchResult>, perPage: int)
    requires perPage >= 1
    ensures FirstPages(results, perPage, TotalPages(|results|, perPage)) == results
  {
    hide TotalPages;
    EnoughPages(|results|, perPage);
    FirstPagesPrefix(results, perPage, TotalPages(|results|, perPage));
  }

  lemma EnoughPages(n: nat, perPage: int)
    requires perPage >= 1
    ensures TotalPages(n, perPage) >= 1 && n <= TotalPages(n, perPage) * perPage
    ensures n > 0 ==> (TotalPages(n, perPage) - 1) * perPage < n
  {
  }

  lemma TimesMonotone(a: int, b: int, p: int)
    requires a <= b && p >= 0
    ensures a * p <= b * p
  {
  }

  lemma PageEmptyBehindAll(results: seq<SearchResult>, page: int, perPage: int)
    requires page >= 1 && perPage >= 1
    ensures PageOf(results, page, perPage) == [] <==> (page - 1) * perPage >= |results|
    ensures |PageOf(results, page, perPage)| <= perPage
  {
  }

  /** Only the pages up to TotalPages hold anything. */
  lemma PageEmptyExactlyBeyond(results: seq<SearchResult>, page: int, perPage: int)
    requires page >= 1 && perPage >= 1 && results != []
    ensures PageOf(results, page, perPage) == [] <==> page > TotalPages(|results|, perPage)
    ensures |PageOf(results, page, perPage)| <= perPage
  {
    hide PageOf, TotalPages;
    var n, t := |results|, TotalPages(|results|, perPage);
    EnoughPages(n, perPage);
    PageEmptyBehindAll(results, page, perPage);
    if page <= t {
      TimesMonotone(page - 1, t - 1, perPage);
    } else {
      TimesMonotone(t, page - 1, perPage);
    }
  }

  /** Every page that holds results can be addressed, so paging is right wherever it matters. */
  lemma NonEmptyPagesAddressable(results: seq<SearchResult>, page: int, perPage: int)
    requires page >= 1 && perPage >= 1 && |results| <= Text.MAX_INT64 && PageOf(results, page, perPage) != []
    ensures Addressable(page, perPage)
  {
  }

  /** A page that is answered wrongly: it is far beyond the last, and shows the first results. */
  lemma UnaddressablePage(results: seq<SearchResult>)
    requires results != []
    ensures var p := ListParams(0x1000_0000_0000_0001, 16);
            && NormalizeParams(p) == p && StartOf(p) == 0
            && ResultsFrom(results, StartOf(p), p.perPage) == PageOf(results, 1, 16) != []
            && (|results| <= Text.MAX_INT64 ==> PageOf(results, p.page, p.perPage) == [])
  {
    hide Text.Wrap64;
    assert 0x1000_0000_0000_0000 * 16 == Text.TWO_64;
    WholeTurn();
  }

  lemma WholeTurn()
    ensures Text.Wrap64(Text.TWO_64) == 0
  {
  }
}
