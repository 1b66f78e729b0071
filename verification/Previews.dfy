/** Branch previews: labels, the preview table and the proxy routes (internal/gitdeploy/preview.go,
    internal/store/preview_deploy.go, internal/proxy/router.go). */
module Previews {
  import Text

  const MAX_PREVIEWS_PER_APP := 10
  const MAX_BRANCH_LABEL_LEN := 63
  const SECOND := 1_000_000_000
  const STALE_PREVIEW_DURATION := 7 * 24 * 3600 * SECOND

  // ---- Labels ----

  predicate LabelChar(c: char) { 'a' <= c <= 'z' || '0' <= c <= '9' || c == '-' }

  predicate LabelText(s: string) {
    forall i :: 0 <= i < |s| ==> LabelChar(s[i])
  }

  /** A DNS label in the sense of section 2.1 of RFC 1123, in lower case. */
  predicate ValidLabel(s: string) {
    1 <= |s| <= 63 && LabelText(s) && s[0] != '-' && s[|s| - 1] != '-'
  }

  function SlashesToDashes(s: string): string {
    seq(|s|, i requires 0 <= i < |s| => if s[i] == '/' then '-' else s[i])
  }

  /** Keeps the label characters only. */
  function Stripped(s: string): (r: string)
    ensures LabelText(r)
    ensures LabelText(s) ==> r == s
  {
    if s == "" then "" else (if LabelChar(s[0]) then [s[0]] else "") + Stripped(s[1..])
  }

  function TrimLeft(s: string): (r: string)
    ensures LabelText(s) ==> LabelText(r)
    ensures r != "" ==> r[0] != '-'
    ensures s != "" && s[0] != '-' ==> r == s
  {
    if s != "" && s[0] == '-' then TrimLeft(s[1..]) else s
  }

  function TrimRight(s: string): (r: string)
    ensures LabelText(s) ==> LabelText(r)
    ensures |r| <= |s|
    ensures r != "" ==> r[0] == s[0] && r[|r| - 1] != '-'
    ensures s != "" && s[|s| - 1] != '-' ==> r == s
  {
    if s != "" && s[|s| - 1] == '-' then TrimRight(s[..|s| - 1]) else s
  }

  function SanitizeBranch(branch: string): string {
    var s := TrimRight(TrimLeft(Stripped(SlashesToDashes(Text.Lower(branch)))));
    var s := if |s| > MAX_BRANCH_LABEL_LEN then TrimRight(s[..MAX_BRANCH_LABEL_LEN]) else s;
    if s == "" then "preview" else s
  }

  /** Whatever the branch is called, its label is a valid one. */
  lemma SanitizedIsValid(branch: string)
    ensures ValidLabel(SanitizeBranch(branch))
  {
    hide Stripped, TrimLeft, TrimRight, SlashesToDashes, Text.Lower;
    var u := TrimRight(TrimLeft(Stripped(SlashesToDashes(Text.Lower(branch)))));
    assert LabelText(u) && (u != "" ==> u[0] != '-');
    if |u| > MAX_BRANCH_LABEL_LEN {
      var cut := u[..MAX_BRANCH_LABEL_LEN];
      assert LabelText(cut) && cut[0] == u[0];
    }
    assert ValidLabel("preview");
  }

  /** Valid labels are the fixed points, so sanitizing twice changes nothing and every valid label
      is the label of some branch. */
  lemma ValidIsFixed(slug: string)
    requires ValidLabel(slug)
    ensures SanitizeBranch(slug) == slug
  {
    hide Stripped, TrimLeft, TrimRight;
    assert Text.Lower(slug) == slug;
    assert SlashesToDashes(slug) == slug;
    assert Stripped(slug) == slug && TrimLeft(slug) == slug && TrimRight(slug) == slug;
  }

  lemma {:induction false} StrippedConcat(a: string, b: string)
    ensures Stripped(a + b) == Stripped(a) + Stripped(b)
  {
    hide LabelChar;
    if a == "" {
      assert a + b == b;
    } else {
      var first := if LabelChar(a[0]) then [a[0]] else "";
      assert (a + b)[0] == a[0] && (a + b)[1..] == a[1..] + b;
      StrippedConcat(a[1..], b);
      assert first + (Stripped(a[1..]) + Stripped(b)) == (first + Stripped(a[1..])) + Stripped(b);
    }
  }

  /** A slash in a branch becomes a dash, in both parts nothing changes; so feature/a and feature-a have one
      label, and one preview. */
  lemma SlashIsDash(a: string, b: string)
    requires ValidLabel(a) && ValidLabel(b) && |a| + 1 + |b| <= MAX_BRANCH_LABEL_LEN
    ensures SanitizeBranch(a + "/" + b) == a + "-" + b == SanitizeBranch(a + "-" + b)
  {
    hide Stripped, TrimLeft, TrimRight, SanitizeBranch;
    var s := a + "/" + b;
    assert forall i :: 0 <= i < |a| ==> LabelChar(s[i]) && s[i] == a[i];
    assert forall i :: |a| < i < |s| ==> LabelChar(s[i]) && s[i] == b[i - |a| - 1];
    assert Text.Lower(s) == s;
    assert SlashesToDashes(s) == a + "-" + b;
    assert ValidLabel(a + "-" + b) by {
      var t := a + "-" + b;
      assert forall i :: 0 <= i < |t| ==> t[i] == if i == |a| then '-' else s[i];
      assert t[|t| - 1] == b[|b| - 1] && t[0] == a[0];
    }
    SameText(s, a + "-" + b);
    ValidIsFixed(a + "-" + b);
  }

  /** Only the text with dashes in lower case counts. */
  lemma SameText(a: string, b: string)
    requires SlashesToDashes(Text.Lower(a)) == SlashesToDashes(Text.Lower(b))
    ensures SanitizeBranch(a) == SanitizeBranch(b)
  {
  }

  /** Any other character that no label has is dropped. */
  lemma OtherIsDropped(a: string, c: char, b: string)
    requires ValidLabel(a + b) && c != '/' && !LabelChar(Text.LowerChar(c))
    ensures SanitizeBranch(a + [c] + b) == a + b
  {
    hide TrimLeft, TrimRight, Stripped;
    var s := a + [c] + b;
    assert forall i :: 0 <= i < |a| ==> LabelChar(a[i]) by { Parts(a, b); }
    assert forall i :: 0 <= i < |b| ==> LabelChar(b[i]) by { Parts(a, b); }
    assert SlashesToDashes(Text.Lower(s)) == a + [Text.LowerChar(c)] + b;
    StrippedConcat(a + [Text.LowerChar(c)], b);
    StrippedConcat(a, [Text.LowerChar(c)]);
    assert Stripped([Text.LowerChar(c)]) == "" by { OneDropped(Text.LowerChar(c)); }
    assert Stripped(a) + "" + Stripped(b) == a + b;
    Trimmed(a + b);
  }

  lemma Parts(a: string, b: string)
    requires LabelText(a + b)
    ensures LabelText(a) && LabelText(b)
  {
    assert forall i :: 0 <= i < |a| ==> a[i] == (a + b)[i];
    assert forall i :: 0 <= i < |b| ==> b[i] == (a + b)[|a| + i];
  }

  lemma OneDropped(c: char)
    requires !LabelChar(c)
    ensures Stripped([c]) == ""
  {
    assert [c][1..] == "";
  }

  lemma Trimmed(s: string)
    requires ValidLabel(s)
    ensures TrimRight(TrimLeft(s)) == s
  {
  }

  /** A label that is too long is cut off. */
  lemma LongIsCut(s: string)
    requires LabelText(s) && |s| > MAX_BRANCH_LABEL_LEN
    requires s[0] != '-' && s[|s| - 1] != '-' && s[MAX_BRANCH_LABEL_LEN - 1] != '-'
    ensures SanitizeBranch(s) == s[..MAX_BRANCH_LABEL_LEN]
  {
    hide TrimLeft, TrimRight, Stripped;
    assert Text.Lower(s) == s && SlashesToDashes(s) == s;
  }

  function PreviewDomain(slug: string, appDomain: string): string { slug + "." + appDomain }

  /** A label has no dot, so label and application domain can be read off a preview domain. */
  lemma DomainInjective(a: string, x: string, b: string, y: string)
    requires ValidLabel(a) && ValidLabel(b) && PreviewDomain(a, x) == PreviewDomain(b, y)
    ensures a == b && x == y
  {
    var d := PreviewDomain(a, x);
    assert d[|a|] == '.' == d[|b|];
    assert forall i :: 0 <= i < |a| ==> LabelChar(d[i]);
    assert forall i :: 0 <= i < |b| ==> LabelChar(d[i]);
    assert |a| == |b|;
    assert a == d[..|a|] && b == d[..|b|] && x == d[|a| + 1..] && y == d[|b| + 1..];
  }

  // ---- The table and the routes ----

  datatype RowId = RowId(n: int)

  /** lastActivity is stored in whole seconds. */
  datatype Preview = Preview(appId: int, branch: string, domain: string, lastActivity: nat)

  datatype State = State(rows: map<RowId, Preview>, nextId: int, routes: set<string>)

  function Init(): State { State(map[], 1, {}) }

  function IdsOf(rows: map<RowId, Preview>, appId: int): set<RowId> {
    set id | id in rows && rows[id].appId == appId
  }

  predicate IsFor(p: Preview, appId: int, slug: string) { p.appId == appId && p.branch == slug }

  predicate Has(rows: map<RowId, Preview>, appId: int, slug: string) {
    exists id :: id in rows && IsFor(rows[id], appId, slug)
  }

  predicate LimitReached(s: State, appId: int) { |IdsOf(s.rows, appId)| >= MAX_PREVIEWS_PER_APP }

  /** Creating for a branch that has a preview renews it; otherwise a row is added unless the limit
      is reached. A route whose backend URL does not parse is not registered. */
  function AfterCreate(s: State, appId: int, branch: string, appDomain: string, now: nat, urlOk: bool): State {
    var slug := SanitizeBranch(branch);
    var domain := PreviewDomain(slug, appDomain);
    var routes := if urlOk then s.routes + {domain} else s.routes;
    if Has(s.rows, appId, slug) then
      State(map id | id in s.rows :: if IsFor(s.rows[id], appId, slug)
                                     then s.rows[id].(lastActivity := now / SECOND) else s.rows[id],
            s.nextId, routes)
    else if LimitReached(s, appId) then s
    else State(s.rows[RowId(s.nextId) := Preview(appId, slug, domain, now / SECOND)], s.nextId + 1, routes)
  }

  function AfterDelete(s: State, appId: int, branch: string, appDomain: string): State {
    var slug := SanitizeBranch(branch);
    if !Has(s.rows, appId, slug) then s
    else State(map id | id in s.rows && !IsFor(s.rows[id], appId, slug) :: s.rows[id],
               s.nextId, s.routes - {PreviewDomain(slug, appDomain)})
  }

  /** The route of a row goes when its last activity is before the cutoff. */
  predicate RouteStale(p: Preview, cutoff: int) { p.lastActivity * SECOND < cutoff }

  /** The row itself goes when the text of its last activity, in UTC, is before that of the cutoff, in whole
      seconds of the local clock: zone is how many seconds that clock is ahead of UTC. A database that
      compares instants behaves as with zone 0. */
  predicate RowStale(p: Preview, cutoff: int, zone: int) { p.lastActivity < cutoff / SECOND + zone }

  function AfterClean(s: State, now: nat, zone: int): State {
    var cutoff := now - STALE_PREVIEW_DURATION;
    State(map id | id in s.rows && !RowStale(s.rows[id], cutoff, zone) :: s.rows[id], s.nextId,
          s.routes - set id | id in s.rows && RouteStale(s.rows[id], cutoff) :: s.rows[id].domain)
  }

  /** Within the limit, a branch whose backend can be addressed has a row and a route behind it, active now,
      and every other row is as before. */
  lemma CreateServes(s: State, appId: int, branch: string, appDomain: string, now: nat)
    requires Has(s.rows, appId, SanitizeBranch(branch)) || !LimitReached(s, appId)
    ensures var t := AfterCreate(s, appId, branch, appDomain, now, true);
            && PreviewDomain(SanitizeBranch(branch), appDomain) in t.routes && s.routes <= t.routes
            && Has(t.rows, appId, SanitizeBranch(branch))
            && (forall id :: id in t.rows && IsFor(t.rows[id], appId, SanitizeBranch(branch)) ==>
                  t.rows[id].lastActivity == now / SECOND)
            && (forall id :: id in s.rows && id.n < s.nextId && !IsFor(s.rows[id], appId, SanitizeBranch(branch)) ==>
                  id in t.rows && t.rows[id] == s.rows[id])
  {
    hide SanitizeBranch, LimitReached, PreviewDomain;
    var t := AfterCreate(s, appId, branch, appDomain, now, true);
    if Has(s.rows, appId, SanitizeBranch(branch)) {
      var id :| id in s.rows && IsFor(s.rows[id], appId, SanitizeBranch(branch));
      assert id in t.rows && IsFor(t.rows[id], appId, SanitizeBranch(branch));
    } else {
      assert IsFor(t.rows[RowId(s.nextId)], appId, SanitizeBranch(branch));
    }
  }

  /** Deleting a preview that was created new leaves rows and routes as they were before. */
  lemma DeleteUndoesCreate(s: State, appId: int, branch: string, appDomain: string, now: nat)
    requires !Has(s.rows, appId, SanitizeBranch(branch)) && !LimitReached(s, appId)
    requires RowId(s.nextId) !in s.rows && PreviewDomain(SanitizeBranch(branch), appDomain) !in s.routes
    ensures AfterDelete(AfterCreate(s, appId, branch, appDomain, now, true), appId, branch, appDomain) ==
              s.(nextId := s.nextId + 1)
  {
    hide SanitizeBranch, LimitReached, PreviewDomain;
    var slug := SanitizeBranch(branch);
    var t := AfterCreate(s, appId, branch, appDomain, now, true);
    assert IsFor(t.rows[RowId(s.nextId)], appId, slug);
    assert (map id | id in t.rows && !IsFor(t.rows[id], appId, slug) :: t.rows[id]) == s.rows;
    assert t.routes - {PreviewDomain(slug, appDomain)} == s.routes;
  }

  ghost predicate OneRowPerBranch(rows: map<RowId, Preview>) {
    forall i, j :: i in rows && j in rows && i != j ==>
      !(rows[i].appId == rows[j].appId && rows[i].branch == rows[j].branch)
  }

  class PreviewManager {
    var rows: map<RowId, Preview>
    var nextId: int
    var routes: set<string>

    ghost function Now(): State
      reads this
    {
      State(rows, nextId, routes)
    }

    ghost predicate Valid()
      reads this
    {
      OneRowPerBranch(rows) && forall id :: id in rows ==> id.n < nextId
    }

    constructor ()
      ensures Now() == Init() && Valid()
    {
      rows, nextId, routes := map[], 1, {};
    }

    method FindPreview(appId: int, slug: string) returns (found: bool, id: RowId)
      ensures found <==> Has(rows, appId, slug)
      ensures found ==> id in rows && IsFor(rows[id], appId, slug)
    {
      found, id := false, RowId(0);
      if k :| k in rows.Keys && IsFor(rows[k], appId, slug) {
        found, id := true, k;
      }
    }

    method Create(appId: int, branch: string, appDomain: string, now: nat, urlOk: bool) returns (ok: bool)
      requires Valid()
      modifies this
      ensures Valid() && Now() == AfterCreate(old(Now()), appId, branch, appDomain, now, urlOk)
      ensures ok <==> urlOk && (Has(old(rows), appId, SanitizeBranch(branch)) || !LimitReached(old(Now()), appId))
    {
      hide SanitizeBranch;
      var slug := SanitizeBranch(branch);
      var domain := PreviewDomain(slug, appDomain);
      var found, id := FindPreview(appId, slug);
      if found {
        rows := rows[id := rows[id].(lastActivity := now / SECOND)];
        assert rows == AfterCreate(old(Now()), appId, branch, appDomain, now, urlOk).rows;
      } else {
        if |IdsOf(rows, appId)| >= MAX_PREVIEWS_PER_APP { return false; }
        rows := rows[RowId(nextId) := Preview(appId, slug, domain, now / SECOND)];
        nextId := nextId + 1;
      }
      if urlOk { routes := routes + {domain}; }
      ok := urlOk;
    }

    method Delete(appId: int, branch: string, appDomain: string) returns (ok: bool)
      requires Valid()
      modifies this
      ensures Valid() && Now() == AfterDelete(old(Now()), appId, branch, appDomain)
      ensures ok <==> Has(old(rows), appId, SanitizeBranch(branch))
    {
      hide SanitizeBranch;
      var slug := SanitizeBranch(branch);
      var found, id := FindPreview(appId, slug);
      if !found { return false; }
      rows := map id | id in rows && !IsFor(rows[id], appId, slug) :: rows[id];
      routes := routes - {PreviewDomain(slug, appDomain)};
      ok := true;
    }

    /** all lists the rows, in the order in which the table returns them. */
    method Clean(now: nat, zone: int, all: seq<RowId>)
      requires Valid() && (forall id :: id in all <==> id in rows)
      modifies this
      ensures Valid() && Now() == AfterClean(old(Now()), now, zone)
    {
      var cutoff := now - STALE_PREVIEW_DURATION;
      for i := 0 to |all|
        invariant rows == old(rows) && nextId == old(nextId)
        invariant routes == old(routes) - set j | 0 <= j < i && RouteStale(rows[all[j]], cutoff) :: rows[all[j]].domain
      {
        var p := rows[all[i]];
        if p.lastActivity * SECOND < cutoff {
          routes := routes - {p.domain};
        }
      }
      assert (set j | 0 <= j < |all| && RouteStale(rows[all[j]], cutoff) :: rows[all[j]].domain) ==
             set id | id in rows && RouteStale(rows[id], cutoff) :: rows[id].domain;
      rows := map id | id in rows && !RowStale(rows[id], cutoff, zone) :: rows[id];
    }
  }

  // ---- Any sequence of operations ----

  datatype Op =
    | Create(appId: int, branch: string, now: nat, urlOk: bool)
    | Delete(appId: int, branch: string)
    | Clean(now: nat, zone: int)

  /** Each application has one domain, which it shares with no other. */
  ghost predicate DistinctDomains(dom: int -> string) {
    forall a, b :: dom(a) == dom(b) ==> a == b
  }

  function After(dom: int -> string, s: State, op: Op): State {
    match op
    case Create(appId, branch, now, urlOk) => AfterCreate(s, appId, branch, dom(appId), now, urlOk)
    case Delete(appId, branch) => AfterDelete(s, appId, branch, dom(appId))
    case Clean(now, zone) => AfterClean(s, now, zone)
  }

  ghost function LiveDomains(rows: map<RowId, Preview>): set<string> {
    set id | id in rows :: rows[id].domain
  }

  ghost predicate RowsOk(dom: int -> string, rows: map<RowId, Preview>) {
    forall id :: id in rows ==>
      ValidLabel(rows[id].branch) && rows[id].domain == PreviewDomain(rows[id].branch, dom(rows[id].appId))
  }

  ghost predicate WithinLimit(rows: map<RowId, Preview>) {
    forall appId :: |IdsOf(rows, appId)| <= MAX_PREVIEWS_PER_APP
  }

  ghost predicate Inv(dom: int -> string, s: State) {
    && OneRowPerBranch(s.rows) && (forall id :: id in s.rows ==> id.n < s.nextId)
    && RowsOk(dom, s.rows)
    && WithinLimit(s.rows)
  }

  /** No route without a live preview. */
  ghost predicate NoOrphans(s: State) { s.routes <= LiveDomains(s.rows) }

  /** The routes are exactly the domains of the live previews. */
  ghost predicate Exact(s: State) { s.routes == LiveDomains(s.rows) }

  lemma SubsetSize<T>(a: set<T>, b: set<T>)
    requires a <= b
    ensures |a| <= |b|
  {
    assert b == a + (b - a);
  }

  lemma CreateKeepsRows(dom: int -> string, s: State, op: Op)
    requires Inv(dom, s) && op.Create?
    ensures var t := After(dom, s, op);
            OneRowPerBranch(t.rows) && (forall id :: id in t.rows ==> id.n < t.nextId) && RowsOk(dom, t.rows)
  {
    hide SanitizeBranch, ValidLabel, WithinLimit, LimitReached;
    SanitizedIsValid(op.branch);
  }

  lemma OthersKeepRows(dom: int -> string, s: State, op: Op)
    requires Inv(dom, s) && !op.Create?
    ensures var t := After(dom, s, op);
            OneRowPerBranch(t.rows) && (forall id :: id in t.rows ==> id.n < t.nextId) && RowsOk(dom, t.rows)
    ensures WithinLimit(After(dom, s, op).rows)
  {
    hide SanitizeBranch, ValidLabel;
    var t := After(dom, s, op);
    forall appId ensures |IdsOf(t.rows, appId)| <= MAX_PREVIEWS_PER_APP {
      SubsetSize(IdsOf(t.rows, appId), IdsOf(s.rows, appId));
    }
  }

  lemma CreateKeepsLimit(dom: int -> string, s: State, op: Op)
    requires Inv(dom, s) && op.Create?
    ensures WithinLimit(After(dom, s, op).rows)
  {
    hide SanitizeBranch, ValidLabel, RowsOk, OneRowPerBranch;
    var t := After(dom, s, op);
    forall appId ensures |IdsOf(t.rows, appId)| <= MAX_PREVIEWS_PER_APP {
      var ids := IdsOf(s.rows, appId);
      assert |ids| <= MAX_PREVIEWS_PER_APP;
      if Has(s.rows, op.appId, SanitizeBranch(op.branch)) || LimitReached(s, op.appId) || appId != op.appId {
        assert IdsOf(t.rows, appId) == ids;
      } else {
        assert IdsOf(t.rows, appId) == ids + {RowId(s.nextId)};
      }
    }
  }

  /** Rows of different domains: distinct labels or distinct applications. */
  lemma DomainsDiffer(dom: int -> string, p: Preview, appId: int, slug: string)
    requires DistinctDomains(dom) && ValidLabel(p.branch) && ValidLabel(slug)
    requires p.domain == PreviewDomain(p.branch, dom(p.appId)) && !IsFor(p, appId, slug)
    ensures p.domain != PreviewDomain(slug, dom(appId))
  {
    if p.domain == PreviewDomain(slug, dom(appId)) {
      DomainInjective(p.branch, dom(p.appId), slug, dom(appId));
    }
  }

  /** What makes the routes differ from the live previews: a new preview whose route is refused, or a
      cleaning pass with a preview that was last active between the two times it compares with. */
  ghost predicate Breaks(dom: int -> string, s: State, op: Op) {
    match op
    case Create(appId, branch, _, urlOk) =>
      !urlOk && !Has(s.rows, appId, SanitizeBranch(branch)) && !LimitReached(s, appId)
    case Delete(_, _) => false
    case Clean(now, zone) => exists id :: id in s.rows && InGap(s.rows[id], now - STALE_PREVIEW_DURATION, zone)
  }

  /** What leaves a route without a preview: the last activity of a preview that has a route is between the
      cutoff and the cutoff by the local clock. */
  ghost predicate LeavesOrphan(s: State, op: Op) {
    && op.Clean?
    && var cutoff := op.now - STALE_PREVIEW_DURATION;
       exists id :: id in s.rows && s.rows[id].domain in s.routes &&
                    InGap(s.rows[id], cutoff, op.zone) && RowStale(s.rows[id], cutoff, op.zone)
  }

  function RoundedUp(cutoff: int): int { (cutoff + SECOND - 1) / SECOND }

  /** Between the cutoff, rounded up to a second, and the cutoff by the local clock, rounded down. */
  predicate InGap(p: Preview, cutoff: int, zone: int) {
    var a, b := RoundedUp(cutoff), cutoff / SECOND + zone;
    a <= p.lastActivity < b || b <= p.lastActivity < a
  }

  lemma GapMeaning(p: Preview, cutoff: int, zone: int)
    ensures InGap(p, cutoff, zone) <==> (RouteStale(p, cutoff) <==> !RowStale(p, cutoff, zone))
    ensures zone <= 0 && RowStale(p, cutoff, zone) ==> RouteStale(p, cutoff)
    ensures zone == 0 ==> (InGap(p, cutoff, zone) <==> p.lastActivity == cutoff / SECOND && cutoff % SECOND != 0)
  {
  }

  lemma CreateRoutes(dom: int -> string, s: State, op: Op)
    requires Inv(dom, s) && DistinctDomains(dom) && op.Create?
    ensures NoOrphans(s) ==> NoOrphans(After(dom, s, op))
    ensures Exact(s) ==> (Exact(After(dom, s, op)) <==> !Breaks(dom, s, op))
  {
    hide SanitizeBranch, ValidLabel, DistinctDomains;
    var t, slug := After(dom, s, op), SanitizeBranch(op.branch);
    var domain := PreviewDomain(slug, dom(op.appId));
    SanitizedIsValid(op.branch);
    if Has(s.rows, op.appId, slug) {
      var id :| id in s.rows && IsFor(s.rows[id], op.appId, slug);
      assert s.rows[id].domain == domain;
      assert t.rows.Keys == s.rows.Keys && forall k :: k in s.rows ==> t.rows[k].domain == s.rows[k].domain;
      assert LiveDomains(t.rows) == LiveDomains(s.rows);
    } else if !LimitReached(s, op.appId) {
      var id := RowId(s.nextId);
      assert t.rows[id].domain == domain;
      assert forall k :: k in s.rows ==> t.rows[k] == s.rows[k];
      assert LiveDomains(t.rows) == LiveDomains(s.rows) + {domain};
      forall k | k in s.rows ensures s.rows[k].domain != domain {
        DomainsDiffer(dom, s.rows[k], op.appId, slug);
      }
    }
  }

  lemma DeleteRoutes(dom: int -> string, s: State, op: Op)
    requires Inv(dom, s) && DistinctDomains(dom) && op.Delete?
    ensures NoOrphans(s) ==> NoOrphans(After(dom, s, op))
    ensures Exact(s) ==> Exact(After(dom, s, op))
  {
    hide SanitizeBranch, ValidLabel, DistinctDomains;
    var t, slug := After(dom, s, op), SanitizeBranch(op.branch);
    SanitizedIsValid(op.branch);
    if Has(s.rows, op.appId, slug) {
      var domain := PreviewDomain(slug, dom(op.appId));
      forall k | k in s.rows ensures s.rows[k].domain == domain <==> IsFor(s.rows[k], op.appId, slug) {
        if !IsFor(s.rows[k], op.appId, slug) { DomainsDiffer(dom, s.rows[k], op.appId, slug); }
      }
      assert forall k :: k in t.rows <==> k in s.rows && s.rows[k].domain != domain;
      assert forall k :: k in t.rows ==> t.rows[k] == s.rows[k];
      forall d | d in LiveDomains(s.rows) && d != domain ensures d in LiveDomains(t.rows) {
        var k :| k in s.rows && s.rows[k].domain == d;
        assert k in t.rows;
      }
    }
  }

  lemma DistinctRowDomains(dom: int -> string, s: State, i: RowId, j: RowId)
    requires Inv(dom, s) && DistinctDomains(dom) && i in s.rows && j in s.rows && i != j
    ensures s.rows[i].domain != s.rows[j].domain
  {
    hide ValidLabel, DistinctDomains;
    DomainsDiffer(dom, s.rows[i], s.rows[j].appId, s.rows[j].branch);
  }

  /** After a cleaning pass a row and its route are what each of the two comparisons leaves. */
  lemma CleanRow(dom: int -> string, s: State, op: Op, id: RowId)
    requires Inv(dom, s) && DistinctDomains(dom) && op.Clean? && id in s.rows
    ensures var cutoff := op.now - STALE_PREVIEW_DURATION;
            && (id in After(dom, s, op).rows <==> !RowStale(s.rows[id], cutoff, op.zone))
            && (s.rows[id].domain in After(dom, s, op).routes <==>
                s.rows[id].domain in s.routes && !RouteStale(s.rows[id], cutoff))
  {
    hide ValidLabel, DistinctDomains, RowsOk, WithinLimit, RowStale, RouteStale;
    forall k | k in s.rows && k != id ensures s.rows[k].domain != s.rows[id].domain {
      DistinctRowDomains(dom, s, k, id);
    }
  }

  lemma CleanRowLive(dom: int -> string, s: State, op: Op, id: RowId)
    requires Inv(dom, s) && DistinctDomains(dom) && op.Clean? && id in s.rows
    ensures s.rows[id].domain in LiveDomains(After(dom, s, op).rows) <==> id in After(dom, s, op).rows
  {
    hide ValidLabel, DistinctDomains, RowsOk, WithinLimit, RowStale, RouteStale;
    var t := After(dom, s, op);
    forall k | k in t.rows && k != id ensures t.rows[k].domain != s.rows[id].domain {
      DistinctRowDomains(dom, s, k, id);
    }
  }

  lemma CleanExact(dom: int -> string, s: State, op: Op)
    requires Inv(dom, s) && DistinctDomains(dom) && op.Clean? && Exact(s)
    ensures Exact(After(dom, s, op)) <==> !Breaks(dom, s, op)
  {
    hide After, Inv, DistinctDomains, RowStale, RouteStale, InGap;
    var t, cutoff := After(dom, s, op), op.now - STALE_PREVIEW_DURATION;
    forall id | id in s.rows
      ensures s.rows[id].domain in t.routes <==> !RouteStale(s.rows[id], cutoff)
      ensures s.rows[id].domain in LiveDomains(t.rows) <==> !RowStale(s.rows[id], cutoff, op.zone)
      ensures InGap(s.rows[id], cutoff, op.zone) <==>
              (RouteStale(s.rows[id], cutoff) <==> !RowStale(s.rows[id], cutoff, op.zone))
    {
      CleanRow(dom, s, op, id);
      CleanRowLive(dom, s, op, id);
      GapMeaning(s.rows[id], cutoff, op.zone);
    }
    CleanOnlyRemoves(dom, s, op);
  }

  lemma CleanOnlyRemoves(dom: int -> string, s: State, op: Op)
    requires op.Clean?
    ensures After(dom, s, op).routes <= s.routes
    ensures LiveDomains(After(dom, s, op).rows) <= LiveDomains(s.rows)
  {
  }

  lemma CleanOrphans(dom: int -> string, s: State, op: Op)
    requires Inv(dom, s) && DistinctDomains(dom) && op.Clean? && NoOrphans(s)
    ensures NoOrphans(After(dom, s, op)) <==> !LeavesOrphan(s, op)
    ensures op.zone <= 0 ==> NoOrphans(After(dom, s, op))
  {
    hide After, Inv, DistinctDomains, RowStale, RouteStale, InGap;
    var t, cutoff := After(dom, s, op), op.now - STALE_PREVIEW_DURATION;
    forall id | id in s.rows
      ensures s.rows[id].domain in t.routes <==> s.rows[id].domain in s.routes && !RouteStale(s.rows[id], cutoff)
      ensures s.rows[id].domain in LiveDomains(t.rows) <==> !RowStale(s.rows[id], cutoff, op.zone)
      ensures InGap(s.rows[id], cutoff, op.zone) <==>
              (RouteStale(s.rows[id], cutoff) <==> !RowStale(s.rows[id], cutoff, op.zone))
      ensures op.zone <= 0 && RowStale(s.rows[id], cutoff, op.zone) ==> RouteStale(s.rows[id], cutoff)
    {
      CleanRow(dom, s, op, id);
      CleanRowLive(dom, s, op, id);
      GapMeaning(s.rows[id], cutoff, op.zone);
    }
    CleanOnlyRemoves(dom, s, op);
  }

  /** Every operation keeps the invariant. It keeps the routes exact if and only if it is none of the
      exceptions, and free of orphans if and only if it leaves none. */
  lemma StepKeepsInv(dom: int -> string, s: State, op: Op)
    requires Inv(dom, s) && DistinctDomains(dom)
    ensures Inv(dom, After(dom, s, op))
    ensures Exact(s) ==> (Exact(After(dom, s, op)) <==> !Breaks(dom, s, op))
    ensures NoOrphans(s) ==> (NoOrphans(After(dom, s, op)) <==> !LeavesOrphan(s, op))
    ensures NoOrphans(s) && !EastOfUtc(op) ==> NoOrphans(After(dom, s, op))
  {
    hide After, RowsOk, WithinLimit, OneRowPerBranch, DistinctDomains, Exact, LiveDomains, NoOrphans;
    match op {
      case Create(_, _, _, _) =>
        CreateKeepsRows(dom, s, op);
        CreateKeepsLimit(dom, s, op);
        CreateRoutes(dom, s, op);
      case Delete(_, _) =>
        OthersKeepRows(dom, s, op);
        DeleteRoutes(dom, s, op);
      case Clean(_, _) =>
        OthersKeepRows(dom, s, op);
        if Exact(s) { CleanExact(dom, s, op); }
        if NoOrphans(s) { CleanOrphans(dom, s, op); }
    }
  }

  /** A cleaning pass by a local clock that is ahead of UTC. */
  predicate EastOfUtc(op: Op) { op.Clean? && op.zone > 0 }

  ghost function Run(dom: int -> string, s: State, ops: seq<Op>): State {
    if ops == [] then s else After(dom, Run(dom, s, ops[..|ops| - 1]), ops[|ops| - 1])
  }

  ghost predicate NothingBreaks(dom: int -> string, s: State, ops: seq<Op>) {
    ops == [] || (NothingBreaks(dom, s, ops[..|ops| - 1]) &&
                  !Breaks(dom, Run(dom, s, ops[..|ops| - 1]), ops[|ops| - 1]))
  }

  /** After any operations: at most ten previews per application, one per label, and every label valid; the
      routes are exactly those of the live previews if nothing broke that; and there is no route without a
      preview if no cleaning pass ran by a clock ahead of UTC. */
  lemma {:induction false} PreviewsSafe(dom: int -> string, ops: seq<Op>)
    requires DistinctDomains(dom)
    ensures Inv(dom, Run(dom, Init(), ops))
    ensures NothingBreaks(dom, Init(), ops) ==> Exact(Run(dom, Init(), ops))
    ensures (forall op :: op in ops ==> !EastOfUtc(op)) ==> NoOrphans(Run(dom, Init(), ops))
  {
    hide Inv, After, Breaks, Exact, DistinctDomains, NoOrphans, LeavesOrphan, EastOfUtc;
    if ops == [] {
      InitSafe(dom);
    } else {
      PreviewsSafe(dom, ops[..|ops| - 1]);
      StepKeepsInv(dom, Run(dom, Init(), ops[..|ops| - 1]), ops[|ops| - 1]);
    }
  }

  /** Anywhere ahead of UTC, a preview that was active at the cutoff loses its row and keeps its route: at any
      time of day. */
  lemma EastLeavesOrphan(zone: int, active: nat)
    requires zone > 0
    ensures var s := State(map[RowId(1) := Preview(1, "a", "a.x", active)], 2, {"a.x"});
            var op := Clean(active * SECOND + STALE_PREVIEW_DURATION, zone);
            Exact(s) && LeavesOrphan(s, op) && !NoOrphans(AfterClean(s, op.now, op.zone))
  {
    var s := State(map[RowId(1) := Preview(1, "a", "a.x", active)], 2, {"a.x"});
    var op := Clean(active * SECOND + STALE_PREVIEW_DURATION, zone);
    assert RowId(1) in s.rows && s.rows[RowId(1)].domain == "a.x";
    assert LiveDomains(s.rows) == {"a.x"};
    var t := AfterClean(s, op.now, op.zone);
    assert "a.x" in t.routes && RowId(1) !in t.rows;
    assert InGap(s.rows[RowId(1)], op.now - STALE_PREVIEW_DURATION, op.zone);
  }

  lemma InitSafe(dom: int -> string)
    ensures Inv(dom, Init()) && Exact(Init()) && NoOrphans(Init())
  {
    forall appId ensures IdsOf(Init().rows, appId) == {} {
    }
  }
}
