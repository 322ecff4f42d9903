/**
 * Paginated split enumeration: the client follows every continuation cursor a worker hands out,
 * first come first served, and returns a plan only when none is left.
 *
 * A worker answers each request as it likes in view of all requests so far, this one included, so
 * every deterministic worker, however stateful, is covered by quantifying over such functions.
 */
module ScanPlans {
  import opened Wrappers
  import RangePartitions

  type Bytes = seq<byte>

  datatype Split = Split(token: Bytes, keyValue: Option<Bytes>, rangeIndex: Option<i64>, rest: Bytes)

  /** Facts about the whole scan that any page may carry. */
  datatype Facts = Facts(
    executionId: Option<Bytes>,
    initOpaqueData: Option<Bytes>,
    maxWorkers: Option<i64>,
    estimates: (Option<i64>, Option<i64>, Option<i64>),
    catalogVersion: Option<i64>,
    locations: Option<seq<string>>,
    partitioning: Option<seq<Bytes>>,
    sortOrder: Option<seq<Bytes>>,
    cacheMaxAgeSeconds: Option<i64>,
    positions: (Option<Bytes>, Option<Bytes>),
    decodes: bool)

  /** One answer; a split that does not decode is `None`. */
  datatype Page = Page(
    splits: seq<Option<Split>>,
    nextCursors: Option<seq<Bytes>>,
    keyGrouping: Option<Bytes>,
    rangePartitioning: Option<Bytes>,
    facts: Facts,
    scope: string)

  datatype Plan = Plan(
    splits: seq<Split>,
    facts: Facts,
    scope: string,
    keyGrouping: Option<Bytes>,
    rangePartitioning: Option<Bytes>)

  const MAX_PAGES: nat := 1024
  const MAX_SPLITS: nat := 1_048_576

  // ------------------------------------------------------ what the pages say

  function NonEmpty(cursors: seq<Bytes>): seq<Bytes> {
    if cursors == [] then []
    else NonEmpty(cursors[..|cursors| - 1]) +
         (if cursors[|cursors| - 1] == [] then [] else [cursors[|cursors| - 1]])
  }

  /** The continuations a page asks for. */
  function CursorsOf(page: Page): seq<Bytes> {
    if page.nextCursors.None? then [] else NonEmpty(page.nextCursors.value)
  }

  function AllCursors(pages: seq<Page>): seq<Bytes> {
    if pages == [] then [] else AllCursors(pages[..|pages| - 1]) + CursorsOf(pages[|pages| - 1])
  }

  function Decoded(splits: seq<Option<Split>>): seq<Split>
    requires forall i | 0 <= i < |splits| :: splits[i].Some?
  {
    seq(|splits|, i requires 0 <= i < |splits| => splits[i].value)
  }

  predicate AllDecode(pages: seq<Page>) {
    forall i, k | 0 <= i < |pages| && 0 <= k < |pages[i].splits| :: pages[i].splits[k].Some?
  }

  function AllSplits(pages: seq<Page>): seq<Split>
    requires AllDecode(pages)
  {
    if pages == [] then [] else AllSplits(pages[..|pages| - 1]) + Decoded(pages[|pages| - 1].splits)
  }

  /** The page may hold the whole-scan sentinel: nothing else is on it, and it promises nothing. */
  predicate MayHoldSentinel(page: Page) {
    && |page.splits| == 1
    && (page.nextCursors.Some? ==> page.nextCursors.value == [])
    && page.keyGrouping.None? && page.rangePartitioning.None?
    && (page.facts.partitioning.Some? ==> page.facts.partitioning.value == [])
  }

  /** A split of a page, with the index it will have in the plan. */
  predicate SplitOk(page: Page, split: Option<Split>, index: nat) {
    split.Some? && (split.value.token == [] ==> index == 0 && MayHoldSentinel(page))
  }

  predicate SplitsOk(page: Page, before: nat) {
    forall k: nat | k < |page.splits| :: SplitOk(page, page.splits[k], before + k)
  }

  predicate Consistent(claims: seq<Option<Bytes>>) {
    forall i | 0 <= i < |claims| :: claims[i] == claims[0]
  }

  function KeyClaims(pages: seq<Page>): seq<Option<Bytes>> {
    seq(|pages|, i requires 0 <= i < |pages| => pages[i].keyGrouping)
  }

  function RangeClaims(pages: seq<Page>): seq<Option<Bytes>> {
    seq(|pages|, i requires 0 <= i < |pages| => pages[i].rangePartitioning)
  }

  function WithoutKeys(splits: seq<Split>): seq<Split> {
    seq(|splits|, i requires 0 <= i < |splits| => splits[i].(keyValue := None))
  }

  function WithoutRanges(splits: seq<Split>): seq<Split> {
    seq(|splits|, i requires 0 <= i < |splits| => splits[i].(rangeIndex := None))
  }

  /** The plan that a complete enumeration amounts to. */
  function PlanOf(pages: seq<Page>): Plan
    requires pages != [] && AllDecode(pages)
  {
    var keys := Consistent(KeyClaims(pages));
    var ranges := Consistent(RangeClaims(pages));
    var splits := if keys then AllSplits(pages) else WithoutKeys(AllSplits(pages));
    Plan(if ranges then splits else WithoutRanges(splits),
         pages[0].facts,
         if pages[0].scope == "" then "catalog" else pages[0].scope,
         if keys then pages[0].keyGrouping else None,
         if ranges then pages[0].rangePartitioning else None)
  }

  // ---------------------------------------------------- complete enumerations

  /** The requests of a complete enumeration: the first, then every non-empty cursor in the order received. */
  function Requests(pages: seq<Page>): seq<Option<Bytes>> {
    [None] + seq(|AllCursors(pages)|, i requires 0 <= i < |AllCursors(pages)| => Some(AllCursors(pages)[i]))
  }

  const NO_FACTS := Facts(None, None, None, (None, None, None), None, None, None, None, None, (None, None), false)

  /** What a worker answers to the last of the requests made so far; `None` is a failed call. */
  type Worker = seq<Option<Bytes>> -> Option<Page>

  /** The first `i + 1` requests that the first `i` pages call for. */
  function Asked(w: Worker, i: nat): seq<Option<Bytes>>
    decreases i, 1
  {
    var requests := Requests(Pages(w, i));
    if i < |requests| then requests[..i + 1] else requests
  }

  function Answer(w: Worker, i: nat): Option<Page>
    decreases i, 2
  {
    w(Asked(w, i))
  }

  function PageAt(w: Worker, i: nat): Page
    decreases i, 3
  {
    if Answer(w, i).Some? then Answer(w, i).value else Page([], None, None, None, NO_FACTS, "")
  }

  function Pages(w: Worker, n: nat): (pages: seq<Page>)
    ensures |pages| == n && forall i | 0 <= i < n :: pages[i] == PageAt(w, i)
    decreases n, 0
  {
    if n == 0 then [] else Pages(w, n - 1) + [PageAt(w, n - 1)]
  }

  /** Request `i` is made in time and answered by a page the client accepts. */
  ghost predicate PageAccepted(w: Worker, late: nat -> bool, i: nat) {
    && !late(i) && Answer(w, i).Some?
    && AllDecode(Pages(w, i + 1))
    && SplitsOk(PageAt(w, i), |AllSplits(Pages(w, i))|)
    && |AllSplits(Pages(w, i + 1))| <= MAX_SPLITS
    && (i == 0 ==> PageAt(w, 0).facts.decodes)
  }

  ghost predicate AcceptedBefore(w: Worker, late: nat -> bool, n: nat) {
    forall i: nat | i < n :: PageAccepted(w, late, i)
  }

  /** With fewer than `n` pages, some cursor has not been followed. */
  ghost predicate OpenBefore(w: Worker, n: nat) {
    forall m: nat | 0 < m < n :: 1 + |AllCursors(Pages(w, m))| > m
  }

  /** After `n` pages every cursor handed out has been followed, and not before. */
  ghost predicate ExhaustedAt(w: Worker, n: nat) {
    && n > 0
    && 1 + |AllCursors(Pages(w, n))| == n
    && OpenBefore(w, n)
  }

  /** The worker's enumeration ends after `n` acceptable pages. */
  ghost predicate Completes(w: Worker, late: nat -> bool, n: nat) {
    && ExhaustedAt(w, n) && n <= MAX_PAGES
    && AcceptedBefore(w, late, n)
  }

  lemma CompletesOnce(w: Worker, late: nat -> bool, m: nat, n: nat)
    requires Completes(w, late, m) && Completes(w, late, n)
    ensures m == n
  {
  }

  lemma PagesExtend(w: Worker, n: nat)
    ensures Pages(w, n + 1) == Pages(w, n) + [PageAt(w, n)]
    ensures Pages(w, n + 1)[..n] == Pages(w, n)
  {
  }

  lemma RequestsExtend(pages: seq<Page>, page: Page)
    ensures Requests(pages + [page]) == Requests(pages) + Somes(CursorsOf(page))
  {
    assert (pages + [page])[..|pages|] == pages;
  }

  function Somes(cursors: seq<Bytes>): seq<Option<Bytes>> {
    seq(|cursors|, i requires 0 <= i < |cursors| => Some(cursors[i]))
  }

  lemma SplitsExtend(pages: seq<Page>, page: Page)
    requires AllDecode(pages) && forall k | 0 <= k < |page.splits| :: page.splits[k].Some?
    ensures AllDecode(pages + [page])
    ensures AllSplits(pages + [page]) == AllSplits(pages) + Decoded(page.splits)
  {
    assert (pages + [page])[..|pages|] == pages;
  }

  lemma ConsistentExtend(claims: seq<Option<Bytes>>, claim: Option<Bytes>)
    requires claims != []
    ensures Consistent(claims + [claim]) <==> Consistent(claims) && claim == claims[0]
  {
    if Consistent(claims + [claim]) {
      forall i | 0 <= i < |claims|
        ensures claims[i] == claims[0]
      {
        assert (claims + [claim])[i] == (claims + [claim])[0];
      }
      assert (claims + [claim])[|claims|] == (claims + [claim])[0];
    }
  }

  // ------------------------------------------------------- requests, counted

  /** How often the pages hand out this cursor, empty ones included. */
  function Handed(pages: seq<Page>, c: Bytes): nat {
    if pages == [] then 0
    else
      var last := pages[|pages| - 1].nextCursors;
      Handed(pages[..|pages| - 1], c) + (if last.Some? then multiset(last.value)[c] else 0)
  }

  lemma CountAppend<T>(s: seq<T>, t: seq<T>, x: T)
    ensures multiset(s + t)[x] == multiset(s)[x] + multiset(t)[x]
  {
  }

  lemma {:induction false} NonEmptyCounts(cursors: seq<Bytes>, c: Bytes)
    ensures multiset(NonEmpty(cursors))[c] == if c == [] then 0 else multiset(cursors)[c]
  {
    if cursors != [] {
      var init, last := cursors[..|cursors| - 1], cursors[|cursors| - 1];
      NonEmptyCounts(init, c);
      assert cursors == init + [last];
      CountAppend(init, [last], c);
      CountAppend(NonEmpty(init), if last == [] then [] else [last], c);
    }
  }

  lemma {:induction false} AllCursorsCount(pages: seq<Page>, c: Bytes)
    ensures multiset(AllCursors(pages))[c] == if c == [] then 0 else Handed(pages, c)
  {
    if pages != [] {
      var page := pages[|pages| - 1];
      AllCursorsCount(pages[..|pages| - 1], c);
      if page.nextCursors.Some? {
        NonEmptyCounts(page.nextCursors.value, c);
      }
      CountAppend(AllCursors(pages[..|pages| - 1]), CursorsOf(page), c);
    }
  }

  lemma {:induction false} SomesCount(cursors: seq<Bytes>, c: Bytes)
    ensures multiset(Somes(cursors))[Some(c)] == multiset(cursors)[c]
  {
    if cursors != [] {
      var init, last := cursors[..|cursors| - 1], cursors[|cursors| - 1];
      SomesCount(init, c);
      SomesLast(cursors);
      hide Somes;
      CountAppend(init, [last], c);
      CountAppend(Somes(init), [Some(last)], Some(c));
    }
  }

  lemma SomesLast(cursors: seq<Bytes>)
    requires cursors != []
    ensures var init, last := cursors[..|cursors| - 1], cursors[|cursors| - 1];
            cursors == init + [last] && Somes(cursors) == Somes(init) + [Some(last)]
  {
  }

  /**
   * The requests of a complete enumeration are the first one, and each non-empty cursor as often as the
   * pages hand it out.
   */
  lemma RequestsCount(pages: seq<Page>, c: Bytes)
    ensures Requests(pages)[0] == None && multiset(Requests(pages))[None] == 1
    ensures multiset(Requests(pages))[Some(c)] == if c == [] then 0 else Handed(pages, c)
  {
    assert Requests(pages) == [None] + Somes(AllCursors(pages));
    SomesCount(AllCursors(pages), c);
    AllCursorsCount(pages, c);
    assert None !in Somes(AllCursors(pages));
    CountAppend([None], Somes(AllCursors(pages)), None);
    CountAppend([None], Somes(AllCursors(pages)), Some(c));
  }

  /** Requests sent are the first one and every non-empty cursor handed out, as often as it was. */
  ghost predicate FollowsEveryCursor(pages: seq<Page>, sent: seq<Option<Bytes>>) {
    && sent != [] && sent[0] == None && multiset(sent)[None] == 1
    && forall c: Bytes :: multiset(sent)[Some(c)] == if c == [] then 0 else Handed(pages, c)
  }

  lemma RequestsFollow(pages: seq<Page>)
    ensures FollowsEveryCursor(pages, Requests(pages))
  {
    forall c: Bytes
      ensures multiset(Requests(pages))[Some(c)] == if c == [] then 0 else Handed(pages, c)
    {
      RequestsCount(pages, c);
    }
    RequestsCount(pages, []);
  }

  /** In particular a cursor on any page is among the requests, unless it is empty. */
  lemma {:induction false} HandedOut(pages: seq<Page>, i: nat, c: Bytes)
    requires i < |pages| && pages[i].nextCursors.Some? && c in pages[i].nextCursors.value
    ensures Handed(pages, c) > 0
  {
    if i < |pages| - 1 {
      HandedOut(pages[..|pages| - 1], i, c);
    }
  }

  lemma CursorIsFollowed(pages: seq<Page>, sent: seq<Option<Bytes>>, i: nat, c: Bytes)
    requires FollowsEveryCursor(pages, sent)
    requires i < |pages| && pages[i].nextCursors.Some? && c in pages[i].nextCursors.value && c != []
    ensures Some(c) in sent
  {
    HandedOut(pages, i, c);
    assert multiset(sent)[Some(c)] > 0;
  }

  // -------------------------------------------------------------- the client

  method FilterCursors(cursors: seq<Bytes>) returns (out: seq<Option<Bytes>>)
    ensures out == Somes(NonEmpty(cursors))
    ensures forall c: Bytes :: multiset(out)[Some(c)] == if c == [] then 0 else multiset(cursors)[c]
  {
    out := [];
    for i := 0 to |cursors|
      invariant out == Somes(NonEmpty(cursors[..i]))
    {
      assert cursors[..i + 1][..i] == cursors[..i];
      if cursors[i] != [] {
        out := out + [Some(cursors[i])];
      }
    }
    assert cursors[..|cursors|] == cursors;
    forall c: Bytes
      ensures multiset(out)[Some(c)] == if c == [] then 0 else multiset(cursors)[c]
    {
      SomesCount(NonEmpty(cursors), c);
      NonEmptyCounts(cursors, c);
    }
  }

  /** Appends the splits of one page, or refuses the page. */
  method AddSplits(splits: seq<Split>, page: Page) returns (r: Option<seq<Split>>)
    ensures r.Some? <==> SplitsOk(page, |splits|)
    ensures r.Some? ==>
              (forall k | 0 <= k < |page.splits| :: page.splits[k].Some?) && r.value == splits + Decoded(page.splits)
  {
    var out := splits;
    for k := 0 to |page.splits|
      invariant forall m: nat | m < k :: SplitOk(page, page.splits[m], |splits| + m)
      invariant forall m | 0 <= m < k :: page.splits[m].Some?
      invariant out == splits + Decoded(page.splits[..k])
    {
      var split := page.splits[k];
      if split.None? || (split.value.token == [] && !(|out| == 0 && MayHoldSentinel(page))) {
        assert !SplitOk(page, page.splits[k], |splits| + k);
        return None;
      }
      out := out + [split.value];
    }
    assert page.splits[..|page.splits|] == page.splits;
    return Some(out);
  }

  /** What has been gathered after each page. */
  datatype Progress = Progress(pages: seq<Page>, splits: seq<Split>, first: Plan, keysOk: bool, rangesOk: bool)

  ghost predicate Gathered(p: Progress) {
    && AllDecode(p.pages) && p.splits == AllSplits(p.pages)
    && (p.pages != [] ==>
          && p.keysOk == Consistent(KeyClaims(p.pages)) && p.rangesOk == Consistent(RangeClaims(p.pages))
          && p.first == Plan([], p.pages[0].facts, if p.pages[0].scope == "" then "catalog" else p.pages[0].scope,
                             p.pages[0].keyGrouping, p.pages[0].rangePartitioning))
  }

  /** The answer to one request: its splits are appended, facts are kept from the first page only. */
  method TakePage(p: Progress, page: Page) returns (r: Option<Progress>)
    requires Gathered(p)
    ensures r.Some? <==> SplitsOk(page, |p.splits|) && |p.splits| + |page.splits| <= MAX_SPLITS
                         && (p.pages == [] ==> page.facts.decodes)
    ensures r.Some? ==> Gathered(r.value) && r.value.pages == p.pages + [page]
  {
    var added := AddSplits(p.splits, page);
    if added.None? || |added.value| > MAX_SPLITS {
      return None;
    }
    if p.pages == [] {
      if !page.facts.decodes {
        return None;
      }
      r := Some(Progress([page], added.value,
                         Plan([], page.facts, if page.scope == "" then "catalog" else page.scope,
                              page.keyGrouping, page.rangePartitioning), true, true));
    } else {
      r := Some(Progress(p.pages + [page], added.value, p.first,
                         p.keysOk && page.keyGrouping == p.first.keyGrouping,
                         p.rangesOk && page.rangePartitioning == p.first.rangePartitioning));
    }
    GatherSplits(p, page);
    ClaimsExtend(p, page);
  }

  lemma GatherSplits(p: Progress, page: Page)
    requires Gathered(p) && SplitsOk(page, |p.splits|)
    ensures AllDecode(p.pages + [page])
    ensures (forall k | 0 <= k < |page.splits| :: page.splits[k].Some?)
            && AllSplits(p.pages + [page]) == p.splits + Decoded(page.splits)
  {
    forall k: nat | k < |page.splits|
      ensures page.splits[k].Some?
    {
      assert SplitOk(page, page.splits[k], |p.splits| + k);
    }
    SplitsExtend(p.pages, page);
  }

  lemma ClaimsExtend(p: Progress, page: Page)
    requires Gathered(p)
    ensures Consistent(KeyClaims(p.pages + [page]))
            == (p.pages == [] || (p.keysOk && page.keyGrouping == p.first.keyGrouping))
    ensures Consistent(RangeClaims(p.pages + [page]))
            == (p.pages == [] || (p.rangesOk && page.rangePartitioning == p.first.rangePartitioning))
  {
    assert KeyClaims(p.pages + [page]) == KeyClaims(p.pages) + [page.keyGrouping];
    assert RangeClaims(p.pages + [page]) == RangeClaims(p.pages) + [page.rangePartitioning];
    if p.pages != [] {
      ConsistentExtend(KeyClaims(p.pages), page.keyGrouping);
      ConsistentExtend(RangeClaims(p.pages), page.rangePartitioning);
    }
  }

  /** A claim that some page changed or left out is withdrawn, with the values splits carry for it. */
  method Withdraw(p: Progress) returns (plan: Plan)
    requires Gathered(p) && p.pages != []
    ensures plan == PlanOf(p.pages)
  {
    var splits := p.splits;
    if !p.keysOk {
      for i := 0 to |splits|
        invariant |splits| == |p.splits|
        invariant forall k | 0 <= k < |splits| ::
                    splits[k] == if k < i then p.splits[k].(keyValue := None) else p.splits[k]
      {
        splits := splits[i := splits[i].(keyValue := None)];
      }
      assert splits == WithoutKeys(p.splits);
    }
    if !p.rangesOk {
      var before := splits;
      for i := 0 to |splits|
        invariant |splits| == |before|
        invariant forall k | 0 <= k < |splits| ::
                    splits[k] == if k < i then before[k].(rangeIndex := None) else before[k]
      {
        splits := splits[i := splits[i].(rangeIndex := None)];
      }
      assert splits == WithoutRanges(before);
    }
    plan := p.first.(splits := splits,
                     keyGrouping := if p.keysOk then p.first.keyGrouping else None,
                     rangePartitioning := if p.rangesOk then p.first.rangePartitioning else None);
  }

  /** Requests sent and requests waiting are, together, all that the pages so far call for. */
  ghost predicate Following(w: Worker, late: nat -> bool, p: Progress, sent: seq<Option<Bytes>>,
                            pending: seq<Option<Bytes>>) {
    && Gathered(p) && p.pages == Pages(w, |sent|)
    && sent + pending == Requests(p.pages)
    && |sent| <= MAX_PAGES
    && AcceptedBefore(w, late, |sent|) && OpenBefore(w, |sent|)
  }

  /**
   * Request `n` is called for and not answered as it must be: the page cap or the time is used up, the
   * call fails, or its page is refused.
   */
  ghost predicate StopsAt(w: Worker, late: nat -> bool, n: nat) {
    && AcceptedBefore(w, late, n) && |Requests(Pages(w, n))| > n
    && (n == 1024 || late(n) || Answer(w, n).None? || PageRefused(PageAt(w, n), Pages(w, n)))
  }

  /** Why a page is refused: a split that does not decode, a misplaced sentinel, too many splits, undecodable facts. */
  predicate PageRefused(page: Page, before: seq<Page>) {
    || (exists k | 0 <= k < |page.splits| :: page.splits[k].None?)
    || (exists k | 0 <= k < |page.splits| :: page.splits[k].Some? && page.splits[k].value.token == []
                                             && (SplitCount(before) + k > 0 || !StandsAlone(page)))
    || SplitCount(before) + |page.splits| > 1_048_576
    || (before == [] && !page.facts.decodes)
  }

  function SplitCount(pages: seq<Page>): nat {
    if pages == [] then 0 else SplitCount(pages[..|pages| - 1]) + |pages[|pages| - 1].splits|
  }

  /** The sole split of its page, with no cursor, not even an empty one, and no claim. */
  predicate StandsAlone(page: Page) {
    && |page.splits| == 1
    && (page.nextCursors.None? || |page.nextCursors.value| == 0)
    && page.keyGrouping.None? && page.rangePartitioning.None?
    && (page.facts.partitioning.None? || |page.facts.partitioning.value| == 0)
  }

  lemma {:induction false} SplitsCounted(pages: seq<Page>)
    requires AllDecode(pages)
    ensures |AllSplits(pages)| == SplitCount(pages)
  {
    if pages != [] {
      SplitsCounted(pages[..|pages| - 1]);
    }
  }

  lemma RefusedPage(p: Progress, page: Page)
    requires Gathered(p)
    ensures PageRefused(page, p.pages) <==>
              !(SplitsOk(page, |p.splits|) && |p.splits| + |page.splits| <= MAX_SPLITS
                && (p.pages == [] ==> page.facts.decodes))
  {
    SplitsCounted(p.pages);
    assert StandsAlone(page) <==> MayHoldSentinel(page);
    if SplitsOk(page, |p.splits|) {
      forall k: nat | k < |page.splits|
        ensures page.splits[k].Some? && (page.splits[k].value.token == [] ==> |p.splits| + k == 0 && StandsAlone(page))
      {
        assert SplitOk(page, page.splits[k], |p.splits| + k);
      }
    } else {
      var k: nat :| k < |page.splits| && !SplitOk(page, page.splits[k], |p.splits| + k);
      assert page.splits[k].None? || page.splits[k].value.token == [];
    }
  }

  ghost predicate NeverCompletes(w: Worker, late: nat -> bool) {
    forall n: nat :: !Completes(w, late, n)
  }

  /** While a cursor is waiting and the next page is not acceptable, no enumeration completes. */
  lemma CannotComplete(w: Worker, late: nat -> bool, p: Progress, sent: seq<Option<Bytes>>, pending: seq<Option<Bytes>>)
    requires Following(w, late, p, sent, pending) && pending != []
    requires |sent| >= MAX_PAGES || !PageAccepted(w, late, |sent|)
    ensures NeverCompletes(w, late)
  {
    hide Pages, PageAt, Answer, Asked;
    forall n: nat
      ensures !Completes(w, late, n)
    {
      if Completes(w, late, n) {
        CompletesLater(w, late, p, sent, pending, n);
      }
    }
  }

  lemma CompletesLater(w: Worker, late: nat -> bool, p: Progress, sent: seq<Option<Bytes>>,
                       pending: seq<Option<Bytes>>, n: nat)
    requires Following(w, late, p, sent, pending) && pending != [] && Completes(w, late, n)
    ensures n > |sent| && PageAccepted(w, late, |sent|)
  {
    hide Pages, PageAt, Answer, Asked;
    assert |sent| < |Requests(p.pages)|;
  }

  lemma QueueMoves(sent: seq<Option<Bytes>>, pending: seq<Option<Bytes>>, more: seq<Option<Bytes>>)
    requires pending != []
    ensures sent + [pending[0]] + (pending[1..] + more) == sent + pending + more
  {
    assert pending == [pending[0]] + pending[1..];
  }

  lemma Follows(w: Worker, late: nat -> bool, p: Progress, sent: seq<Option<Bytes>>, pending: seq<Option<Bytes>>,
                p': Progress)
    requires Following(w, late, p, sent, pending) && pending != [] && |sent| < MAX_PAGES
    requires PageAccepted(w, late, |sent|) && Gathered(p') && p'.pages == p.pages + [PageAt(w, |sent|)]
    ensures Following(w, late, p', sent + [pending[0]], pending[1..] + Somes(CursorsOf(PageAt(w, |sent|))))
  {
    hide Pages, PageAt, Answer, Asked, Requests, Gathered, PageAccepted, OpenBefore, CursorsOf, Somes;
    QueueFollows(w, p.pages, sent, pending);
    OpenOnce(w, p.pages, sent, pending);
  }

  lemma OpenOnce(w: Worker, pages: seq<Page>, sent: seq<Option<Bytes>>, pending: seq<Option<Bytes>>)
    requires pages == Pages(w, |sent|) && pending != [] && sent + pending == Requests(pages) && OpenBefore(w, |sent|)
    ensures OpenBefore(w, |sent| + 1)
  {
    hide Pages, PageAt, Answer, Asked;
    assert |sent + pending| == 1 + |AllCursors(pages)|;
  }

  lemma QueueFollows(w: Worker, pages: seq<Page>, sent: seq<Option<Bytes>>, pending: seq<Option<Bytes>>)
    requires pages == Pages(w, |sent|) && pending != [] && sent + pending == Requests(pages)
    ensures pages + [PageAt(w, |sent|)] == Pages(w, |sent| + 1)
    ensures sent + [pending[0]] + (pending[1..] + Somes(CursorsOf(PageAt(w, |sent|))))
            == Requests(pages + [PageAt(w, |sent|)])
  {
    hide Pages, PageAt, Answer, Asked;
    PagesExtend(w, |sent|);
    RequestsExtend(pages, PageAt(w, |sent|));
    QueueMoves(sent, pending, Somes(CursorsOf(PageAt(w, |sent|))));
  }

  lemma PageVerdict(w: Worker, late: nat -> bool, p: Progress, n: nat)
    requires Gathered(p) && p.pages == Pages(w, n) && !late(n) && Answer(w, n).Some?
    ensures PageAccepted(w, late, n) <==>
              && SplitsOk(PageAt(w, n), |p.splits|) && |p.splits| + |PageAt(w, n).splits| <= MAX_SPLITS
              && (n == 0 ==> PageAt(w, n).facts.decodes)
  {
    hide Pages, PageAt, Answer, Asked;
    var page := PageAt(w, n);
    PagesExtend(w, n);
    if SplitsOk(page, |p.splits|) {
      forall k: nat | k < |page.splits|
        ensures page.splits[k].Some?
      {
        assert SplitOk(page, page.splits[k], |p.splits| + k);
      }
      SplitsExtend(p.pages, page);
    }
  }

  /** The oldest waiting request is the one that comes next. */
  lemma SendsNext(w: Worker, late: nat -> bool, p: Progress, sent: seq<Option<Bytes>>, pending: seq<Option<Bytes>>)
    requires Following(w, late, p, sent, pending) && pending != []
    ensures w(sent + [pending[0]]) == Answer(w, |sent|)
  {
    hide Pages, PageAt, Requests, Gathered, AcceptedBefore, OpenBefore;
    var requests := Requests(Pages(w, |sent|));
    assert requests == sent + pending && requests[..|sent| + 1] == sent + [pending[0]];
  }

  /** One request: the oldest waiting cursor is sent and the page's own cursors go to the back of the queue. */
  method Ask(w: Worker, late: nat -> bool, p: Progress, sent: seq<Option<Bytes>>, pending: seq<Option<Bytes>>)
    returns (r: Option<Progress>, rest: seq<Option<Bytes>>)
    requires Following(w, late, p, sent, pending) && pending != []
    ensures r.None? ==> NeverCompletes(w, late) && StopsAt(w, late, |sent|)
    ensures r.Some? ==> |sent| < MAX_PAGES && Following(w, late, r.value, sent + [pending[0]], rest)
  {
    rest := pending[1..];
    assert |Requests(p.pages)| == |sent + pending| > |sent|;
    if |p.pages| >= MAX_PAGES || late(|p.pages|) {
      CannotComplete(w, late, p, sent, pending);
      return None, rest;
    }
    SendsNext(w, late, p, sent, pending);
    var answer := w(sent + [pending[0]]);
    if answer.None? {
      CannotComplete(w, late, p, sent, pending);
      return None, rest;
    }
    var page := answer.value;
    PageVerdict(w, late, p, |sent|);
    RefusedPage(p, page);
    r := TakePage(p, page);
    if r.None? {
      CannotComplete(w, late, p, sent, pending);
      return;
    }
    Follows(w, late, p, sent, pending, r.value);
    var more: seq<Option<Bytes>> := [];
    if page.nextCursors.Some? {
      more := FilterCursors(page.nextCursors.value);
    }
    rest := rest + more;
  }

  lemma Starts(w: Worker, late: nat -> bool)
    ensures Following(w, late, START, [], [None])
  {
  }

  const START := Progress([], [], Plan([], NO_FACTS, "catalog", None, None), true, true)

  lemma Finishes(w: Worker, late: nat -> bool, p: Progress, sent: seq<Option<Bytes>>)
    requires Following(w, late, p, sent, [])
    ensures Completes(w, late, |sent|) && p.pages == Pages(w, |sent|) && p.pages != []
            && sent == Requests(Pages(w, |sent|))
  {
    assert sent == sent + [];
  }

  /** Sends requests until no cursor is waiting. */
  method Enumerate(w: Worker, late: nat -> bool) returns (r: Option<Progress>, sent: seq<Option<Bytes>>)
    ensures r.None? ==> NeverCompletes(w, late) && StopsAt(w, late, |sent|)
    ensures r.Some? ==> Gathered(r.value) && r.value.pages == Pages(w, |sent|) && r.value.pages != []
    ensures r.Some? ==> Completes(w, late, |sent|) && sent == Requests(Pages(w, |sent|))
  {
    sent := [];
    var pending: seq<Option<Bytes>> := [None];
    var p := START;
    Starts(w, late);
    while pending != []
      invariant Following(w, late, p, sent, pending)
      decreases MAX_PAGES - |sent|
    {
      var next, rest := Ask(w, late, p, sent, pending);
      if next.None? {
        return None, sent;
      }
      sent, pending, p := sent + [pending[0]], rest, next.value;
    }
    Finishes(w, late, p, sent);
    return Some(p), sent;
  }

  /** How range records read, if they decode; a record that does not is refused with its page. */
  type Decoder = Bytes -> RangePartitions.Ranges

  function RangesOf(plan: Plan, decoder: Decoder): Option<RangePartitions.Ranges> {
    if plan.rangePartitioning.Some? then Some(decoder(plan.rangePartitioning.value)) else None
  }

  function RangeIndices(plan: Plan): seq<Option<i64>> {
    seq(|plan.splits|, i requires 0 <= i < |plan.splits| => plan.splits[i].rangeIndex)
  }

  /** A plan exists: the enumeration completes after `n` pages and the metadata of their plan is valid. */
  ghost predicate Plannable(w: Worker, late: nat -> bool, decoder: Decoder, otherOk: Plan -> bool, n: nat) {
    && Completes(w, late, n) && AllDecode(Pages(w, n))
    && var plan := PlanOf(Pages(w, n));
    RangePartitions.Accepts(RangesOf(plan, decoder), RangeIndices(plan)) && otherOk(plan)
  }

  /** The ranges of the plan, if it has any, partition the keys, and every split names one of them. */
  ghost predicate RangesHold(plan: Plan, decoder: Decoder) {
    match RangesOf(plan, decoder)
    case None => forall k | 0 <= k < |plan.splits| :: plan.splits[k].rangeIndex.None?
    case Some(ranges) =>
      && RangePartitions.Sound(ranges)
      && RangePartitions.Partitions(RangePartitions.Orders(ranges.keys), ranges.points.value.rows)
      && forall k | 0 <= k < |plan.splits| ::
           RangePartitions.ValidIndex(plan.splits[k].rangeIndex, |ranges.points.value.rows| + 1)
  }

  lemma AcceptedRangesHold(plan: Plan, decoder: Decoder)
    requires RangePartitions.Accepts(RangesOf(plan, decoder), RangeIndices(plan))
    ensures RangesHold(plan, decoder)
  {
    if plan.rangePartitioning.Some? {
      RangePartitions.AcceptedPlanPartitions(decoder(plan.rangePartitioning.value), RangeIndices(plan));
    }
    forall k | 0 <= k < |plan.splits|
      ensures RangeIndices(plan)[k] == plan.splits[k].rangeIndex
    {
    }
  }

  /**
   * A plan is returned exactly when the enumeration completes within every bound and the metadata
   * is valid, and then it is the plan of all pages, and its ranges are what they claim to be; the
   * requests sent are exactly the first one and every cursor received, once each, in the order
   * received.  Anything else is an error.
   */
  method MakePlan(w: Worker, late: nat -> bool, decoder: Decoder, otherOk: Plan -> bool)
    returns (r: Option<Plan>, sent: seq<Option<Bytes>>)
    ensures r.Some? <==> exists n: nat :: Plannable(w, late, decoder, otherOk, n)
    ensures r.Some? ==> Plannable(w, late, decoder, otherOk, |sent|) && r.value == PlanOf(Pages(w, |sent|))
    ensures r.Some? ==> sent == Requests(Pages(w, |sent|)) && RangesHold(r.value, decoder)
    ensures r.Some? ==> FollowsEveryCursor(Pages(w, |sent|), sent)
    ensures r.None? ==> StopsAt(w, late, |sent|) || (Completes(w, late, |sent|) && AllDecode(Pages(w, |sent|)) &&
                          (!otherOk(PlanOf(Pages(w, |sent|)))
                           || !RangePartitions.Accepts(RangesOf(PlanOf(Pages(w, |sent|)), decoder),
                                                       RangeIndices(PlanOf(Pages(w, |sent|))))))
  {
    var p;
    p, sent := Enumerate(w, late);
    if p.None? {
      return None, sent;
    }
    var plan := Withdraw(p.value);
    var ok := RangePartitions.Validate(RangesOf(plan, decoder), RangeIndices(plan));
    if ok && otherOk(plan) {
      assert Plannable(w, late, decoder, otherOk, |sent|);
      AcceptedRangesHold(plan, decoder);
      RequestsFollow(Pages(w, |sent|));
      return Some(plan), sent;
    }
    forall n: nat | Plannable(w, late, decoder, otherOk, n)
      ensures false
    {
      CompletesOnce(w, late, n, |sent|);
    }
    return None, sent;
  }

  // ------------------------------------------------------------- the sentinel

  lemma DecodePrefix(pages: seq<Page>, n: nat)
    requires AllDecode(pages) && n <= |pages|
    ensures AllDecode(pages[..n])
  {
  }

  /** Each split of a plan comes from one page, at one place there. */
  lemma {:induction false} SplitOrigin(w: Worker, n: nat, k: nat) returns (i: nat, m: nat)
    requires AllDecode(Pages(w, n)) && k < |AllSplits(Pages(w, n))|
    ensures i < n && AllDecode(Pages(w, i)) && m < |PageAt(w, i).splits|
    ensures k == |AllSplits(Pages(w, i))| + m && PageAt(w, i).splits[m] == Some(AllSplits(Pages(w, n))[k])
  {
    hide Pages, PageAt, Answer, Asked;
    PagesExtend(w, n - 1);
    DecodePrefix(Pages(w, n), n - 1);
    var before := |AllSplits(Pages(w, n - 1))|;
    if k >= before {
      i, m := n - 1, k - before;
      assert Pages(w, n)[n - 1].splits[m].Some?;
    } else {
      i, m := SplitOrigin(w, n - 1, k);
    }
  }

  /** In a plan an empty token stands at index 0 only, alone on its page, with no claim and no continuation there. */
  lemma SentinelStandsFirst(w: Worker, late: nat -> bool, n: nat, k: nat) returns (i: nat)
    requires Completes(w, late, n) && AllDecode(Pages(w, n))
    requires k < |AllSplits(Pages(w, n))| && AllSplits(Pages(w, n))[k].token == []
    ensures k == 0 && i < n && MayHoldSentinel(PageAt(w, i))
    ensures PageAt(w, i).splits == [Some(AllSplits(Pages(w, n))[0])]
  {
    hide Pages, PageAt, Answer, Asked;
    var m;
    i, m := SplitOrigin(w, n, k);
    assert PageAccepted(w, late, i);
    assert SplitOk(PageAt(w, i), PageAt(w, i).splits[m], |AllSplits(Pages(w, i))| + m);
  }

  lemma ClaimlessPage(pages: seq<Page>, i: nat)
    requires i < |pages| && AllDecode(pages) && pages[i].keyGrouping.None? && pages[i].rangePartitioning.None?
    ensures PlanOf(pages).keyGrouping.None? && PlanOf(pages).rangePartitioning.None?
  {
    assert KeyClaims(pages)[i] == None && RangeClaims(pages)[i] == None;
    assert KeyClaims(pages)[0] == pages[0].keyGrouping && RangeClaims(pages)[0] == pages[0].rangePartitioning;
  }

  /** A plan with the sentinel makes no claim: a claim would be one of every page, and the sentinel's makes none. */
  lemma SentinelMakesNoClaim(w: Worker, late: nat -> bool, n: nat, k: nat)
    requires Completes(w, late, n) && AllDecode(Pages(w, n))
    requires k < |AllSplits(Pages(w, n))| && AllSplits(Pages(w, n))[k].token == []
    ensures PlanOf(Pages(w, n)).keyGrouping.None? && PlanOf(Pages(w, n)).rangePartitioning.None?
  {
    hide Pages, PageAt, Answer, Asked;
    var i := SentinelStandsFirst(w, late, n, k);
    ClaimlessPage(Pages(w, n), i);
  }

  /** No page other than `i` has a split. */
  ghost predicate OthersEmpty(pages: seq<Page>, i: nat) {
    forall m: nat | m < |pages| && m != i :: pages[m].splits == []
  }

  lemma LastSplits(pages: seq<Page>)
    requires pages != [] && AllDecode(pages)
    ensures var last := |pages| - 1;
            AllDecode(pages[..last]) && |AllSplits(pages)| == |AllSplits(pages[..last])| + |pages[last].splits|
  {
    DecodePrefix(pages, |pages| - 1);
  }

  lemma {:induction false} NoSplits(pages: seq<Page>)
    requires AllDecode(pages)
    ensures |AllSplits(pages)| == 0 <==> forall m: nat | m < |pages| :: pages[m].splits == []
  {
    hide AllDecode, Decoded;
    if pages != [] {
      var last := |pages| - 1;
      LastSplits(pages);
      NoSplits(pages[..last]);
      assert forall m: nat | m < last :: pages[..last][m] == pages[m];
    }
  }

  lemma {:induction false} SplitsOfOne(pages: seq<Page>, i: nat)
    requires i < |pages| && AllDecode(pages) && |pages[i].splits| == 1
    ensures |AllSplits(pages)| >= 1
    ensures |AllSplits(pages)| == 1 <==> OthersEmpty(pages, i)
  {
    hide AllSplits, AllDecode;
    var last := |pages| - 1;
    LastSplits(pages);
    assert forall m: nat | m < last :: pages[..last][m] == pages[m];
    if i == last {
      NoSplits(pages[..last]);
    } else {
      SplitsOfOne(pages[..last], i);
    }
  }

  /**
   * The sentinel is meant to be the sole split of its plan.  That is so exactly when no other page has
   * a split, which the client does not check; it checks only what comes before the sentinel.
   */
  lemma SentinelIsSoleSplit(w: Worker, late: nat -> bool, n: nat, k: nat) returns (i: nat)
    requires Completes(w, late, n) && AllDecode(Pages(w, n))
    requires k < |AllSplits(Pages(w, n))| && AllSplits(Pages(w, n))[k].token == []
    ensures i < n && Pages(w, n)[i].splits == [Some(AllSplits(Pages(w, n))[0])]
    ensures |PlanOf(Pages(w, n)).splits| == 1 <==> OthersEmpty(Pages(w, n), i)
  {
    hide Pages, PageAt, Answer, Asked;
    i := SentinelStandsFirst(w, late, n, k);
    SplitsOfOne(Pages(w, n), i);
  }

  /**
   * It is meant to have no continuation, and the plan is that of one page exactly when page one hands out no cursor.
   */
  lemma OnePageIffNoCursor(w: Worker, late: nat -> bool, n: nat)
    requires Completes(w, late, n)
    ensures n == 1 <==> CursorsOf(PageAt(w, 0)) == []
  {
    PagesExtend(w, 0);
    assert AllCursors(Pages(w, 1)) == CursorsOf(PageAt(w, 0));
  }

  function Bare(splits: seq<Option<Split>>, cursors: Option<seq<Bytes>>): Page {
    Page(splits, cursors, None, None, NO_FACTS.(decodes := true), "")
  }

  /** First two cursors and no split, then the sentinel for one and an ordinary split for the other. */
  function Straggling(asked: seq<Option<Bytes>>): Option<Page> {
    if asked == [] || asked[|asked| - 1] == None then Some(Bare([], Some([[1], [2]])))
    else if asked[|asked| - 1] == Some([1]) then Some(Bare([Some(Split([], None, None, []))], None))
    else Some(Bare([Some(Split([7], None, None, []))], None))
  }

  predicate NeverLate(i: nat) { false }

  const FIRST := Bare([], Some([[1], [2]]))
  const WHOLE := Bare([Some(Split([], None, None, []))], None)
  const OTHER := Bare([Some(Split([7], None, None, []))], None)

  lemma StragglingRequests(pages: seq<Page>)
    requires pages == [FIRST] || pages == [FIRST, WHOLE] || pages == [FIRST, WHOLE, OTHER]
    ensures AllCursors(pages) == [[1], [2]] && Requests(pages) == [None, Some([1]), Some([2])]
  {
    assert CursorsOf(FIRST) == [[1], [2]] by {
      assert [[1], [2]][..1] == [[1 as byte]];
      assert NonEmpty([[1]]) == [[1]];
    }
    assert AllCursors([FIRST]) == [[1], [2]];
    assert [FIRST, WHOLE][..1] == [FIRST];
    assert AllCursors([FIRST, WHOLE]) == [[1], [2]];
    assert [FIRST, WHOLE, OTHER][..2] == [FIRST, WHOLE];
  }

  lemma StragglingAnswers(i: nat, pages: seq<Page>)
    requires i < 3 && pages == [FIRST, WHOLE, OTHER][..i] && Pages(Straggling, i) == pages
    ensures Answer(Straggling, i) == Some([FIRST, WHOLE, OTHER][i])
  {
    if i > 0 {
      StragglingRequests(pages);
      assert Asked(Straggling, i) == [None, Some([1]), Some([2])][..i + 1];
    }
  }

  lemma StragglingPages()
    ensures Pages(Straggling, 1) == [FIRST] && Pages(Straggling, 2) == [FIRST, WHOLE]
    ensures Pages(Straggling, 3) == [FIRST, WHOLE, OTHER]
    ensures forall i: nat | i < 3 :: Answer(Straggling, i).Some?
  {
    hide Answer, Asked;
    StragglingAnswers(0, []);
    StragglingAnswers(1, [FIRST]);
    StragglingAnswers(2, [FIRST, WHOLE]);
  }

  lemma OneMoreSplit(pages: seq<Page>, split: Split)
    requires AllDecode(pages)
    ensures AllDecode(pages + [Bare([Some(split)], None)])
    ensures AllSplits(pages + [Bare([Some(split)], None)]) == AllSplits(pages) + [split]
  {
    SplitsExtend(pages, Bare([Some(split)], None));
  }

  lemma StragglingSplits()
    ensures AllDecode([FIRST]) && AllSplits([FIRST]) == []
    ensures AllDecode([FIRST, WHOLE]) && AllSplits([FIRST, WHOLE]) == [Split([], None, None, [])]
    ensures AllDecode([FIRST, WHOLE, OTHER])
    ensures AllSplits([FIRST, WHOLE, OTHER]) == [Split([], None, None, []), Split([7], None, None, [])]
  {
    SplitsExtend([], FIRST);
    assert [] + [FIRST] == [FIRST];
    assert AllSplits([FIRST]) == [];
    hide AllSplits, AllDecode;
    OneMoreSplit([FIRST], Split([], None, None, []));
    assert [FIRST] + [WHOLE] == [FIRST, WHOLE];
    OneMoreSplit([FIRST, WHOLE], Split([7], None, None, []));
    assert [FIRST, WHOLE] + [OTHER] == [FIRST, WHOLE, OTHER];
  }

  lemma StragglingAccepted(i: nat)
    requires i < 3
    ensures PageAccepted(Straggling, NeverLate, i)
  {
    hide Pages, PageAt, Answer, Asked, Straggling;
    StragglingPages();
    StragglingSplits();
    assert PageAt(Straggling, i) == Pages(Straggling, 3)[i];
  }

  /** A worker whose sentinel is accepted beside another split. */
  lemma SentinelBesideASplit()
    ensures Completes(Straggling, NeverLate, 3) && AllDecode(Pages(Straggling, 3))
    ensures AllSplits(Pages(Straggling, 3)) == [Split([], None, None, []), Split([7], None, None, [])]
  {
    hide Pages, PageAt, Answer, Asked, Straggling;
    StragglingPages();
    StragglingSplits();
    StragglingRequests([FIRST]);
    StragglingRequests([FIRST, WHOLE]);
    StragglingRequests([FIRST, WHOLE, OTHER]);
    forall i: nat | i < 3
      ensures PageAccepted(Straggling, NeverLate, i)
    {
      StragglingAccepted(i);
    }
  }

  // -------------------------------------------------------------- the claims

  /** A grouping claim reaches the plan exactly when every page made it, byte for byte. */
  lemma KeyClaimIsUnanimous(pages: seq<Page>, claim: Bytes)
    requires pages != [] && AllDecode(pages)
    ensures PlanOf(pages).keyGrouping == Some(claim) <==> forall i | 0 <= i < |pages| ::
              pages[i].keyGrouping == Some(claim)
  {
    Unanimous(KeyClaims(pages), claim);
    assert forall i | 0 <= i < |pages| :: KeyClaims(pages)[i] == pages[i].keyGrouping;
  }

  lemma RangeClaimIsUnanimous(pages: seq<Page>, claim: Bytes)
    requires pages != [] && AllDecode(pages)
    ensures PlanOf(pages).rangePartitioning == Some(claim) <==> forall i | 0 <= i < |pages| ::
              pages[i].rangePartitioning == Some(claim)
  {
    Unanimous(RangeClaims(pages), claim);
    assert forall i | 0 <= i < |pages| :: RangeClaims(pages)[i] == pages[i].rangePartitioning;
  }

  lemma Unanimous(claims: seq<Option<Bytes>>, claim: Bytes)
    requires claims != []
    ensures (Consistent(claims) && claims[0] == Some(claim)) <==> forall i | 0 <= i < |claims| ::
              claims[i] == Some(claim)
  {
  }

  /** One page that disagrees is enough for no split to keep a value for the claim. */
  lemma WithdrawnClaimLeavesNoTrace(pages: seq<Page>, i: nat, split: Split)
    requires i < |pages| && AllDecode(pages) && split in PlanOf(pages).splits
    ensures pages[i].keyGrouping != pages[0].keyGrouping ==> split.keyValue.None?
    ensures pages[i].rangePartitioning != pages[0].rangePartitioning ==> split.rangeIndex.None?
  {
    assert KeyClaims(pages)[i] == pages[i].keyGrouping && KeyClaims(pages)[0] == pages[0].keyGrouping;
    assert RangeClaims(pages)[i] == pages[i].rangePartitioning && RangeClaims(pages)[0] == pages[0].rangePartitioning;
  }

  // ------------------------------------------------- where everything stands

  lemma NonEmptyOne(c: Bytes)
    ensures NonEmpty([c]) == if c == [] then [] else [c]
  {
    assert [c][..0] == [];
  }

  /** Dropping the empty cursors goes cursor by cursor, so order and repetitions stay. */
  lemma {:induction false} NonEmptyAppend(a: seq<Bytes>, b: seq<Bytes>)
    ensures NonEmpty(a + b) == NonEmpty(a) + NonEmpty(b)
  {
    if b == [] {
      assert a + b == a;
    } else {
      NonEmptyAppend(a, b[..|b| - 1]);
      assert (a + b)[..|a + b| - 1] == a + b[..|b| - 1];
    }
  }

  lemma {:induction false} CursorsGrow(pages: seq<Page>, n: nat)
    requires n <= |pages|
    ensures AllCursors(pages[..n]) <= AllCursors(pages)
  {
    if n == |pages| {
      assert pages[..n] == pages;
    } else {
      CursorsGrow(pages[..|pages| - 1], n);
      assert pages[..|pages| - 1][..n] == pages[..n];
    }
  }

  lemma CursorsUpTo(pages: seq<Page>, i: nat)
    requires i < |pages|
    ensures AllCursors(pages[..i + 1]) == AllCursors(pages[..i]) + CursorsOf(pages[i])
  {
    assert pages[..i + 1][..i] == pages[..i];
  }

  /** The request for cursor `m` of page `i` comes after those for all cursors of the pages before. */
  lemma RequestsInOrder(pages: seq<Page>, i: nat, m: nat)
    requires i < |pages| && m < |CursorsOf(pages[i])|
    ensures var k := 1 + |AllCursors(pages[..i])| + m;
            k < |Requests(pages)| && Requests(pages)[k] == Some(CursorsOf(pages[i])[m])
  {
    hide AllCursors, CursorsOf;
    CursorsUpTo(pages, i);
    CursorsGrow(pages, i + 1);
    var before := |AllCursors(pages[..i])|;
    assert AllCursors(pages)[before + m] == AllCursors(pages[..i + 1])[before + m] == CursorsOf(pages[i])[m];
  }

  lemma {:induction false} SplitsInOrder(pages: seq<Page>, i: nat, m: nat)
    requires AllDecode(pages) && i < |pages| && m < |pages[i].splits| && AllDecode(pages[..i])
    ensures var k := |AllSplits(pages[..i])| + m;
            k < |AllSplits(pages)| && Some(AllSplits(pages)[k]) == pages[i].splits[m]
  {
    var last := |pages| - 1;
    if i < last {
      DecodePrefix(pages, last);
      assert pages[..last][..i] == pages[..i];
      SplitsInOrder(pages[..last], i, m);
    }
  }

  /**
   * A plan holds every split of every page, in order, and page one's facts; only values of withdrawn claims are gone.
   */
  lemma {:induction false} PlanHoldsEverySplit(pages: seq<Page>, i: nat, m: nat)
    requires AllDecode(pages) && i < |pages| && m < |pages[i].splits| && AllDecode(pages[..i])
    ensures var k := |AllSplits(pages[..i])| + m;
            && k < |PlanOf(pages).splits| && pages[i].splits[m].Some?
            && PlanOf(pages).splits[k].token == pages[i].splits[m].value.token
            && PlanOf(pages).splits[k].rest == pages[i].splits[m].value.rest
            && ((forall n | 0 <= n < |pages| :: pages[n].keyGrouping == pages[0].keyGrouping) ==>
                  PlanOf(pages).splits[k].keyValue == pages[i].splits[m].value.keyValue)
            && ((forall n | 0 <= n < |pages| :: pages[n].rangePartitioning == pages[0].rangePartitioning) ==>
                  PlanOf(pages).splits[k].rangeIndex == pages[i].splits[m].value.rangeIndex)
    ensures |PlanOf(pages).splits| == SplitCount(pages) && |AllSplits(pages[..i])| == SplitCount(pages[..i])
    ensures PlanOf(pages).facts == pages[0].facts
    ensures PlanOf(pages).scope == if pages[0].scope == "" then "catalog" else pages[0].scope
  {
    SplitsInOrder(pages, i, m);
    SplitsCounted(pages);
    SplitsCounted(pages[..i]);
    assert KeyClaims(pages)[0] == pages[0].keyGrouping && RangeClaims(pages)[0] == pages[0].rangePartitioning;
  }
}
