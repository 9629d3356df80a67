/** The poller of KillFetcher.js: `_getEventsPage` with its retries and
    backoff, `_pollOnce` scanning the newest events page by page down to the
    cursor `lastSeenEventId`, and `_rememberPublished`. The upstream HTTP API
    is a parameter: the response to each request of one poll. */
module FeedScanner {
  import opened Text
  import opened Events
  import opened Ledger
  import opened WatchFilter
  import opened Delivery

  const MaxOffset: nat := 1000
  const PageSize: nat := 51
  const MaxRetries: nat := 3
  const BackoffBaseMs: nat := 500
  const MaxPublishedKeep: nat := 500

  /** The upstream events API as one poll sees it: `feed(n, offset)` is what
      the `n`-th HTTP request of the poll (counting from 0) returns when it
      asks for the page at `offset`, a list of events or a thrown error. */
  type Feed = (nat, nat) -> Result<seq<Kill>>

  /** What `_getEventsPage` produced and how many requests it spent. */
  datatype PageFetch = PageFetch(res: Result<seq<Kill>>, used: nat)

  /** Attempts `attempt` to `MaxRetries` of `_getEventsPage(offset)`, whose
      first request is request number `calls` of the poll: the first answer is
      returned, and after the last failure its error is rethrown. `used`
      counts the requests from the first attempt on. */
  function Attempts(feed: Feed, calls: nat, offset: nat, attempt: nat): (r: PageFetch)
    requires attempt <= MaxRetries
    ensures attempt < r.used <= MaxRetries + 1
    ensures r.res == feed(calls + r.used - 1, offset)
    ensures r.res.Err? ==> r.used == MaxRetries + 1
    decreases MaxRetries - attempt
  {
    var out := feed(calls + attempt, offset);
    if out.Ok? || attempt == MaxRetries then PageFetch(out, attempt + 1)
    else Attempts(feed, calls, offset, attempt + 1)
  }

  /** Every attempt before the one that answered failed: a page is retried
      only after an error, and the answer is never discarded. */
  lemma {:induction false} AttemptsRetryOnlyErrors(feed: Feed, calls: nat, offset: nat, attempt: nat)
    requires attempt <= MaxRetries
    ensures var r := Attempts(feed, calls, offset, attempt);
      forall n :: calls + attempt <= n < calls + r.used - 1 ==> feed(n, offset).Err?
    decreases MaxRetries - attempt
  {
    if feed(calls + attempt, offset).Err? && attempt < MaxRetries {
      AttemptsRetryOnlyErrors(feed, calls, offset, attempt + 1);
    }
  }

  /** `_getEventsPage(offset)` issued as request number `calls`. */
  function FetchPage(feed: Feed, calls: nat, offset: nat): PageFetch {
    Attempts(feed, calls, offset, 0)
  }

  /** A page reader: what `_getEventsPage(offset)` yields when its first
      request is the `calls`-th of the poll. */
  type PageSource = (nat, nat) -> PageFetch

  /** `_getEventsPage` over the upstream feed. */
  function Pages(feed: Feed): PageSource {
    (calls: nat, offset: nat) => FetchPage(feed, calls, offset)
  }

  /** The sleeps after the first `n` failed attempts: 500 ms doubled each time. */
  function Backoffs(n: nat): (r: seq<nat>)
    ensures |r| == n
    decreases n
  {
    if n == 0 then [] else Backoffs(n - 1) + [BackoffBaseMs * Pow2(n - 1)]
  }

  /** The schedule the retry loop follows: 0.5 s, 1 s, 2 s, and no sleep after
      the last attempt. */
  lemma BackoffSchedule()
    ensures Backoffs(MaxRetries) == [500, 1000, 2000]
  {
    assert Pow2(0) == 1 && Pow2(1) == 2 && Pow2(2) == 4;
  }

  /** `_getEventsPage(offset)` as a retry loop, with the sleeps it makes. */
  method GetEventsPage(feed: Feed, calls: nat, offset: nat) returns (res: Result<seq<Kill>>, used: nat, waits: seq<nat>)
    ensures PageFetch(res, used) == FetchPage(feed, calls, offset)
    ensures waits == Backoffs(used - 1)
  {
    var lastErr := "";
    var attempt := 0;
    waits := [];
    while attempt <= MaxRetries
      invariant 0 <= attempt <= MaxRetries + 1
      invariant attempt > 0 ==> feed(calls + attempt - 1, offset) == Err(lastErr)
      invariant waits == Backoffs(if attempt <= MaxRetries then attempt else MaxRetries)
      invariant attempt <= MaxRetries ==> FetchPage(feed, calls, offset) == Attempts(feed, calls, offset, attempt)
      invariant attempt == MaxRetries + 1 ==>
        FetchPage(feed, calls, offset) == PageFetch(feed(calls + MaxRetries, offset), MaxRetries + 1)
      decreases MaxRetries + 1 - attempt
    {
      var out := feed(calls + attempt, offset);
      if out.Ok? {
        return out, attempt + 1, waits;
      }
      lastErr := out.message;
      if attempt < MaxRetries {
        waits := waits + [BackoffBaseMs * Pow2(attempt)];
      }
      attempt := attempt + 1;
    }
    res := Err(lastErr);
    used := MaxRetries + 1;
  }

  /** What a poll knows while it scans: the watch filter and the cursor it
      started from. */
  datatype Scope = Scope(accepts: Kill -> bool, lastSeen: int)

  /** `matchesFilters` with the bot's player names, as the filter of a poll. */
  function Filter(cfg: WatchConfig, players: seq<string>): Kill -> bool {
    (kill: Kill) => MatchesFilters(cfg, players, kill).ok
  }

  /** The scan so far: the published ledger, the kills handed to the bot, and
      whether the cursor has been reached. */
  datatype ScanState = ScanState(ledger: seq<int>, queued: seq<Kill>, stopped: bool)

  /** One event of a page: skip a missing id; stop at the cursor; skip an id
      published before or an event the filter rejects; otherwise hand it
      over and remember its id. */
  function Examine(sc: Scope, st: ScanState, kill: Kill): ScanState {
    var id := kill.eventId;
    if id == 0 then st
    else if sc.lastSeen != 0 && id <= sc.lastSeen then st.(stopped := true)
    else if id in st.ledger then st
    else if !sc.accepts(kill) then st
    else st.(ledger := Remembered(st.ledger, id, MaxPublishedKeep), queued := st.queued + [kill])
  }

  /** The inner loop of `_pollOnce` over one page, up to the cursor. */
  function ScanPage(sc: Scope, st: ScanState, page: seq<Kill>): ScanState
    decreases |page|
  {
    if page == [] then st
    else
      var prev := ScanPage(sc, st, page[..|page| - 1]);
      if prev.stopped then prev else Examine(sc, prev, page[|page| - 1])
  }

  /** How the page loop ended: the scan state, the requests spent, and the
      error that aborted the poll, if any. */
  datatype Scan = Scan(st: ScanState, calls: nat, aborted: Option<string>)

  /** The outer loop of `_pollOnce` from `offset` on: fetch the page, stop on
      an empty page, abort when the fetch throws, scan it, and go on to the
      next offset unless the cursor was reached. */
  function ScanFrom(sc: Scope, pages: PageSource, calls: nat, offset: nat, st: ScanState): Scan
    decreases MaxOffset + PageSize - offset
  {
    if offset > MaxOffset then Scan(st, calls, None)
    else
      var f := pages(calls, offset);
      var calls' := calls + f.used;
      if f.res.Err? then Scan(st, calls', Some(f.res.message))
      else if f.res.value == [] then Scan(st, calls', None)
      else
        var st' := ScanPage(sc, st, f.res.value);
        if st'.stopped then Scan(st', calls', None)
        else ScanFrom(sc, pages, calls', offset + PageSize, st')
  }

  /** One turn of the page loop, spelled out. */
  lemma ScanFromStep(sc: Scope, pages: PageSource, calls: nat, offset: nat, st: ScanState)
    requires offset <= MaxOffset
    ensures var f := pages(calls, offset);
      var r := ScanFrom(sc, pages, calls, offset, st);
      if f.res.Err? then r == Scan(st, calls + f.used, Some(f.res.message))
      else if f.res.value == [] then r == Scan(st, calls + f.used, None)
      else
        var st' := ScanPage(sc, st, f.res.value);
        if st'.stopped then r == Scan(st', calls + f.used, None)
        else r == ScanFrom(sc, pages, calls + f.used, offset + PageSize, st')
  {
  }

  /** How a turn of the page loop ends the scan, in terms of the page
      `_getEventsPage` read: a page that could not be read aborts it, and an
      empty page or the cursor ends it. */
  lemma ScanEnds(sc: Scope, feed: Feed, total: Scan, calls: nat, offset: nat, st: ScanState,
                 page: Result<seq<Kill>>, used: nat)
    requires offset <= MaxOffset
    requires ScanFrom(sc, Pages(feed), calls, offset, st) == total
    requires FetchPage(feed, calls, offset) == PageFetch(page, used)
    ensures page.Err? ==> total == Scan(st, calls + used, Some(page.message))
    ensures page.Ok? && page.value == [] ==> total == Scan(st, calls + used, None)
    ensures page.Ok? && page.value != [] && ScanPage(sc, st, page.value).stopped ==>
      total == Scan(ScanPage(sc, st, page.value), calls + used, None)
  {
    ScanFromStep(sc, Pages(feed), calls, offset, st);
    assert Pages(feed)(calls, offset) == PageFetch(page, used);
  }

  /** A page read and scanned without reaching the cursor: the scan resumes at
      the next offset. */
  lemma ScanGoesOn(sc: Scope, feed: Feed, total: Scan, calls: nat, offset: nat, st: ScanState,
                   page: seq<Kill>, used: nat, after: ScanState)
    requires offset <= MaxOffset
    requires ScanFrom(sc, Pages(feed), calls, offset, st) == total
    requires FetchPage(feed, calls, offset) == PageFetch(Ok(page), used)
    requires page != [] && ScanPage(sc, st, page) == after && !after.stopped
    ensures ScanFrom(sc, Pages(feed), calls + used, offset + PageSize, after) == total
  {
    var f := Pages(feed)(calls, offset);
    assert f == PageFetch(Ok(page), used);
    assert !f.res.Err? && f.res.value != [];
  }

  /** Scanning one more event of a page that has not stopped examines it. */
  lemma ScanPageNext(sc: Scope, st: ScanState, page: seq<Kill>, i: nat)
    requires i < |page| && !ScanPage(sc, st, page[..i]).stopped
    ensures ScanPage(sc, st, page[..i + 1]) == Examine(sc, ScanPage(sc, st, page[..i]), page[i])
  {
    assert page[..i + 1][..i] == page[..i];
  }

  /** A page scan that has stopped by event `i` (or read them all) is the
      scan of the whole page. */
  lemma ScanPageRest(sc: Scope, st: ScanState, page: seq<Kill>, i: nat)
    requires i <= |page| && (i == |page| || ScanPage(sc, st, page[..i]).stopped)
    ensures ScanPage(sc, st, page) == ScanPage(sc, st, page[..i])
  {
    if i < |page| {
      var done, rest := page[..i], page[i..];
      assert done + rest == page;
      StoppedStays(sc, st, done, rest);
    } else {
      assert page[..i] == page;
    }
  }

  /** Past the last offset the page loop is over. */
  lemma ScanFromPastEnd(sc: Scope, pages: PageSource, calls: nat, offset: nat, st: ScanState)
    requires offset > MaxOffset
    ensures ScanFrom(sc, pages, calls, offset, st) == Scan(st, calls, None)
  {
  }

  /** The outcome of one `_pollOnce`: the ledger, the kills handed over, the new
      cursor, and the error it threw. */
  datatype PollResult = PollResult(ledger: seq<int>, queued: seq<Kill>, lastSeen: int, error: Option<string>)

  /** `_pollOnce`: scan from offset 0, then, unless a page fetch threw, read the
      head page once more and move the cursor up to its first id. */
  function Poll(sc: Scope, ledger: seq<int>, feed: Feed): (r: PollResult)
    ensures r.lastSeen >= sc.lastSeen
    ensures r.error.Some? ==> r.lastSeen == sc.lastSeen
    // the error is the one that aborted the page loop
    ensures r.error == ScanFrom(sc, Pages(feed), 0, 0, ScanState(ledger, [], false)).aborted
    // the cursor moves exactly when the scan was clean and the confirmation
    // read's id lies above it, and then it moves to that id
    ensures var newest := HeadId(feed, ScanFrom(sc, Pages(feed), 0, 0, ScanState(ledger, [], false)).calls);
      (r.lastSeen != sc.lastSeen <==> r.error.None? && newest > sc.lastSeen) &&
      (r.lastSeen != sc.lastSeen ==> r.lastSeen == newest)
    // a cursor that is not negative (as it always is) moves only on a
    // successful, non-empty confirmation read, to the first id it returned
    ensures var head := FetchPage(feed, ScanFrom(sc, Pages(feed), 0, 0, ScanState(ledger, [], false)).calls, 0).res;
      sc.lastSeen >= 0 && r.lastSeen != sc.lastSeen ==>
        head.Ok? && |head.value| > 0 && r.lastSeen == head.value[0].eventId
  {
    var scan := ScanFrom(sc, Pages(feed), 0, 0, ScanState(ledger, [], false));
    if scan.aborted.Some? then PollResult(scan.st.ledger, scan.st.queued, sc.lastSeen, scan.aborted)
    else
      var newest := HeadId(feed, scan.calls);
      PollResult(scan.st.ledger, scan.st.queued, if newest > sc.lastSeen then newest else sc.lastSeen, None)
  }

  /** `newestNow`: the first id of the confirmation read of the head page, or 0
      when that read failed or came back empty. */
  function HeadId(feed: Feed, calls: nat): int {
    var head := FetchPage(feed, calls, 0).res;
    if head.Ok? && |head.value| > 0 then head.value[0].eventId else 0
  }

  /** A kill the poll may hand over: it has an id, lies above the cursor when
      there is one, and passes the filter. */
  predicate Queueable(sc: Scope, kill: Kill) {
    kill.eventId != 0 && (sc.lastSeen != 0 ==> kill.eventId > sc.lastSeen) && sc.accepts(kill)
  }

  function Ids(kills: seq<Kill>): (r: seq<int>)
    ensures |r| == |kills| && forall i :: 0 <= i < |kills| ==> r[i] == kills[i].eventId
  {
    seq(|kills|, i requires 0 <= i < |kills| => kills[i].eventId)
  }

  /** The scan so far is accounted for: everything handed over is queueable,
      each handed-over id was unpublished when it was examined, and the
      ledger is the starting ledger with the handed-over ids remembered in
      order. */
  ghost predicate Tracks(sc: Scope, ledger0: seq<int>, st: ScanState) {
    (forall k :: k in st.queued ==> Queueable(sc, k)) &&
    FreshRun(ledger0, Ids(st.queued), MaxPublishedKeep) &&
    st.ledger == RememberedAll(ledger0, Ids(st.queued), MaxPublishedKeep)
  }

  lemma ExamineTracks(sc: Scope, ledger0: seq<int>, st: ScanState, kill: Kill)
    requires Tracks(sc, ledger0, st)
    ensures Tracks(sc, ledger0, Examine(sc, st, kill))
  {
    ExamineKeepsQueueable(sc, st, kill);
    ExamineFresh(sc, ledger0, st, kill);
    ExamineLedger(sc, ledger0, st, kill);
  }

  /** Examining an event hands over at most that event, and only when it is
      queueable and its id is not in the published ledger. */
  lemma ExamineQueues(sc: Scope, st: ScanState, kill: Kill)
    ensures var next := Examine(sc, st, kill);
      next.queued == st.queued ||
      (next.queued == st.queued + [kill] && Queueable(sc, kill) && kill.eventId !in st.ledger)
  {
  }

  lemma ExamineKeepsQueueable(sc: Scope, st: ScanState, kill: Kill)
    requires forall k :: k in st.queued ==> Queueable(sc, k)
    ensures forall k :: k in Examine(sc, st, kill).queued ==> Queueable(sc, k)
  {
    ExamineQueues(sc, st, kill);
  }

  /** What is handed over next was not yet published. */
  lemma ExamineFresh(sc: Scope, ledger0: seq<int>, st: ScanState, kill: Kill)
    requires st.ledger == RememberedAll(ledger0, Ids(st.queued), MaxPublishedKeep)
    requires FreshRun(ledger0, Ids(st.queued), MaxPublishedKeep)
    ensures FreshRun(ledger0, Ids(Examine(sc, st, kill).queued), MaxPublishedKeep)
  {
    ExamineQueues(sc, st, kill);
    if Examine(sc, st, kill).queued != st.queued {
      IdsNext(st.queued, kill);
      FreshRunNext(ledger0, Ids(st.queued), kill.eventId, MaxPublishedKeep);
    }
  }

  /** Examining an event remembers the id of what it hands over. */
  lemma ExamineLedger(sc: Scope, ledger0: seq<int>, st: ScanState, kill: Kill)
    requires st.ledger == RememberedAll(ledger0, Ids(st.queued), MaxPublishedKeep)
    ensures var next := Examine(sc, st, kill);
      next.ledger == RememberedAll(ledger0, Ids(next.queued), MaxPublishedKeep)
  {
    var id := kill.eventId;
    if id == 0 || (sc.lastSeen != 0 && id <= sc.lastSeen) || id in st.ledger || !sc.accepts(kill) {
      assert Examine(sc, st, kill).queued == st.queued;
      assert Examine(sc, st, kill).ledger == st.ledger;
    } else {
      assert Examine(sc, st, kill) == st.(ledger := Remembered(st.ledger, id, MaxPublishedKeep), queued := st.queued + [kill]);
      IdsNext(st.queued, kill);
      RememberedAllNext(ledger0, Ids(st.queued), id, MaxPublishedKeep);
    }
  }

  lemma IdsNext(kills: seq<Kill>, kill: Kill)
    ensures Ids(kills + [kill]) == Ids(kills) + [kill.eventId]
  {
    var a := Ids(kills + [kill]);
    var b := Ids(kills) + [kill.eventId];
    forall i | 0 <= i < |a| ensures a[i] == b[i] {
      assert (kills + [kill])[i] == if i < |kills| then kills[i] else kill;
    }
  }

  lemma {:induction false} ScanPageTracks(sc: Scope, ledger0: seq<int>, st: ScanState, page: seq<Kill>)
    requires Tracks(sc, ledger0, st)
    ensures Tracks(sc, ledger0, ScanPage(sc, st, page))
    decreases |page|
  {
    if page != [] {
      ScanPageTracks(sc, ledger0, st, page[..|page| - 1]);
      var prev := ScanPage(sc, st, page[..|page| - 1]);
      if !prev.stopped {
        ExamineTracks(sc, ledger0, prev, page[|page| - 1]);
      }
    }
  }

  /** The scan state after scanning each of `ps` in turn. */
  function ScanPages(sc: Scope, st: ScanState, ps: seq<seq<Kill>>): ScanState
    decreases |ps|
  {
    if ps == [] then st else ScanPages(sc, ScanPage(sc, st, ps[0]), ps[1..])
  }

  /** The page loop's scan state is that of scanning the pages it read, one
      after the other. */
  lemma {:induction false} ScanFromPages(sc: Scope, pages: PageSource, calls: nat, offset: nat, st: ScanState)
    returns (ps: seq<seq<Kill>>)
    ensures ScanFrom(sc, pages, calls, offset, st).st == ScanPages(sc, st, ps)
    decreases MaxOffset + PageSize - offset
  {
    var page, calls', done := ScanFromTurn(sc, pages, calls, offset, st);
    var rest := [];
    if !done {
      rest := ScanFromPages(sc, pages, calls', offset + PageSize, ScanPage(sc, st, page));
    }
    ps := ScanPagesCons(sc, st, page, rest);
  }

  /** One more page in front. */
  lemma ScanPagesCons(sc: Scope, st: ScanState, page: seq<Kill>, rest: seq<seq<Kill>>) returns (ps: seq<seq<Kill>>)
    ensures ScanPages(sc, st, ps) == ScanPages(sc, ScanPage(sc, st, page), rest)
  {
    ps := [page] + rest;
    assert ps[0] == page && ps[1..] == rest;
  }

  lemma {:induction false} ScanPagesTracks(sc: Scope, ledger0: seq<int>, st: ScanState, ps: seq<seq<Kill>>)
    requires Tracks(sc, ledger0, st)
    ensures Tracks(sc, ledger0, ScanPages(sc, st, ps))
    decreases |ps|
  {
    if ps != [] {
      ScanPageTracks(sc, ledger0, st, ps[0]);
      ScanPagesTracks(sc, ledger0, ScanPage(sc, st, ps[0]), ps[1..]);
    }
  }

  /** One turn of the page loop as the page it scans (none when the loop is
      over or the fetch failed): either the scan ends with that page, or it
      goes on at the next offset. */
  lemma ScanFromTurn(sc: Scope, pages: PageSource, calls: nat, offset: nat, st: ScanState)
    returns (page: seq<Kill>, calls': nat, done: bool)
    ensures done ==> ScanFrom(sc, pages, calls, offset, st).st == ScanPage(sc, st, page)
    ensures !done ==> offset <= MaxOffset
    ensures !done ==> ScanFrom(sc, pages, calls, offset, st).st == ScanFrom(sc, pages, calls', offset + PageSize, ScanPage(sc, st, page)).st
  {
    page, calls', done := [], calls, true;
    if offset <= MaxOffset {
      var f := pages(calls, offset);
      if f.res.Ok? && f.res.value != [] {
        page, calls' := f.res.value, calls + f.used;
        done := ScanPage(sc, st, page).stopped;
      }
    }
  }

  /** Whether it completes or aborts on a page it cannot read, a poll hands
      over only queueable kills, never one whose id is in the published
      ledger at that point, and its ledger is the old ledger with exactly the
      handed-over ids remembered, in order. */
  lemma PollTracks(sc: Scope, ledger: seq<int>, feed: Feed)
    ensures var r := Poll(sc, ledger, feed);
      (forall k :: k in r.queued ==> Queueable(sc, k)) &&
      FreshRun(ledger, Ids(r.queued), MaxPublishedKeep) &&
      r.ledger == RememberedAll(ledger, Ids(r.queued), MaxPublishedKeep)
  {
    var init := ScanState(ledger, [], false);
    assert Ids([]) == [];
    var ps := ScanFromPages(sc, Pages(feed), 0, 0, init);
    ScanPagesTracks(sc, ledger, init, ps);
  }

  /** Every kill a poll hands to the bot has an id, lies above the cursor the
      poll started from (when there was one), and passes `matchesFilters`. */
  lemma PollQueuesOnlyNewMatches(cfg: WatchConfig, players: seq<string>, lastSeen: int, ledger: seq<int>, feed: Feed)
    ensures var r := Poll(Scope(Filter(cfg, players), lastSeen), ledger, feed);
      forall k :: k in r.queued ==>
        k.eventId != 0 && (lastSeen != 0 ==> k.eventId > lastSeen) && MatchesFilters(cfg, players, k).ok
  {
    var sc := Scope(Filter(cfg, players), lastSeen);
    PollTracks(sc, ledger, feed);
    forall k | k in Poll(sc, ledger, feed).queued
      ensures k.eventId != 0 && (lastSeen != 0 ==> k.eventId > lastSeen) && MatchesFilters(cfg, players, k).ok
    {
      assert Queueable(sc, k);
    }
  }

  /** When the ledger was within its bound, the ledger after a poll holds the
      newest 500 of the old entries followed by the handed-over ids. */
  lemma PollLedgerIsNewest(sc: Scope, ledger: seq<int>, feed: Feed)
    requires |ledger| <= MaxPublishedKeep
    ensures var r := Poll(sc, ledger, feed);
      r.ledger == Newest(ledger + Ids(r.queued), MaxPublishedKeep)
  {
    PollTracks(sc, ledger, feed);
    RememberedAllFresh(ledger, Ids(Poll(sc, ledger, feed).queued), MaxPublishedKeep);
  }

  /** While the ledger has room for everything a poll hands over, the poll
      hands over no id that was already published and no id twice. */
  lemma PollNeverRepublishes(sc: Scope, ledger: seq<int>, feed: Feed)
    requires Distinct(ledger) && |ledger| + |Poll(sc, ledger, feed).queued| <= MaxPublishedKeep
    ensures Distinct(ledger + Ids(Poll(sc, ledger, feed).queued))
  {
    PollTracks(sc, ledger, feed);
    FreshRunDistinct(ledger, Ids(Poll(sc, ledger, feed).queued), MaxPublishedKeep);
  }

  /** Once the scan reaches the cursor, the rest of the page changes nothing. */
  lemma {:induction false} StoppedStays(sc: Scope, st: ScanState, p: seq<Kill>, q: seq<Kill>)
    requires ScanPage(sc, st, p).stopped
    ensures ScanPage(sc, st, p + q) == ScanPage(sc, st, p)
    decreases |q|
  {
    if q == [] {
      assert p + q == p;
    } else {
      var n := |q| - 1;
      assert (p + q)[..|p + q| - 1] == p + q[..n];
      StoppedStays(sc, st, p, q[..n]);
    }
  }

  /** With nothing new upstream, a poll hands nothing over: if the first
      event of the newest page carries an id at or below the cursor, nothing
      is queued, the ledger is untouched, and the cursor does not move back. */
  lemma NothingNewQueuesNothing(sc: Scope, ledger: seq<int>, feed: Feed)
    requires sc.lastSeen != 0
    requires var f := FetchPage(feed, 0, 0);
      f.res.Ok? && |f.res.value| > 0 && f.res.value[0].eventId != 0 && f.res.value[0].eventId <= sc.lastSeen
    ensures var r := Poll(sc, ledger, feed);
      r.queued == [] && r.ledger == ledger && r.error == None && r.lastSeen >= sc.lastSeen
  {
    var page := FetchPage(feed, 0, 0).res.value;
    var init := ScanState(ledger, [], false);
    assert page[..1][..0] == [];
    assert ScanPage(sc, init, page[..1]) == init.(stopped := true);
    StoppedStays(sc, init, page[..1], page[1..]);
    assert page[..1] + page[1..] == page;
  }

  /** The cursor at 103 and a feed whose newest page is 105, 104, 103: the
      two newer events are handed over, 103 stops the scan, and the
      confirmation read moves the cursor to 105. */
  lemma CursorScenario(sc: Scope, feed: Feed, k105: Kill, k104: Kill, k103: Kill)
    requires sc.lastSeen == 103
    requires k105.eventId == 105 && k104.eventId == 104 && k103.eventId == 103
    requires sc.accepts(k105) && sc.accepts(k104)
    requires forall n :: feed(n, 0) == Ok([k105, k104, k103])
    ensures Poll(sc, [], feed) == PollResult([105, 104], [k105, k104], 105, None)
  {
    var page := [k105, k104, k103];
    var init := ScanState([], [], false);
    var last := ScanState([105, 104], [k105, k104], true);
    StableHead(feed, page, 0);
    StableHead(feed, page, 1);
    CursorScenarioPage(sc, k105, k104, k103);
    ScanFromStep(sc, Pages(feed), 0, 0, init);
    assert Pages(feed)(0, 0) == PageFetch(Ok(page), 1);
    assert ScanFrom(sc, Pages(feed), 0, 0, init) == Scan(last, 1, None);
  }

  /** A feed that always answers with the same head page is read at once. */
  lemma StableHead(feed: Feed, page: seq<Kill>, calls: nat)
    requires forall n :: feed(n, 0) == Ok(page)
    ensures FetchPage(feed, calls, 0) == PageFetch(Ok(page), 1)
  {
    assert feed(calls, 0) == Ok(page);
  }

  /** The page of the cursor scenario, event by event. */
  lemma CursorScenarioPage(sc: Scope, k105: Kill, k104: Kill, k103: Kill)
    requires sc.lastSeen == 103
    requires k105.eventId == 105 && k104.eventId == 104 && k103.eventId == 103
    requires sc.accepts(k105) && sc.accepts(k104)
    ensures ScanPage(sc, ScanState([], [], false), [k105, k104, k103]) == ScanState([105, 104], [k105, k104], true)
  {
    SecondHandedOver(sc, k105, k104);
    ScanPageThree(sc, ScanState([], [], false), k105, k104, k103);
  }

  /** 105 lies above the cursor 103 and passes the filter: it is handed over. */
  lemma FirstHandedOver(sc: Scope, k105: Kill)
    requires sc.lastSeen == 103 && k105.eventId == 105 && sc.accepts(k105)
    ensures ScanPage(sc, ScanState([], [], false), [k105]) == ScanState([105], [k105], false)
  {
    ScanPageOne(sc, ScanState([], [], false), k105);
    ScenarioLedger();
  }

  /** So is 104, which is new to the ledger. */
  lemma SecondHandedOver(sc: Scope, k105: Kill, k104: Kill)
    requires sc.lastSeen == 103 && k105.eventId == 105 && k104.eventId == 104
    requires sc.accepts(k105) && sc.accepts(k104)
    ensures ScanPage(sc, ScanState([], [], false), [k105, k104]) == ScanState([105, 104], [k105, k104], false)
  {
    FirstHandedOver(sc, k105);
    ScanPageTwo(sc, ScanState([], [], false), k105, k104);
    ScenarioLedger();
  }

  lemma ScenarioLedger()
    ensures Remembered([], 105, MaxPublishedKeep) == [105]
    ensures Remembered([105], 104, MaxPublishedKeep) == [105, 104]
  {
    assert Added([], 105) == [105];
    assert [105][0] != 104;
    assert Added([105], 104) == [105, 104];
  }

  lemma ScanPageOne(sc: Scope, st: ScanState, a: Kill)
    ensures ScanPage(sc, st, [a]) == if st.stopped then st else Examine(sc, st, a)
  {
    assert [a][..0] == [];
  }

  lemma ScanPageTwo(sc: Scope, st: ScanState, a: Kill, b: Kill)
    ensures var p := ScanPage(sc, st, [a]);
      ScanPage(sc, st, [a, b]) == if p.stopped then p else Examine(sc, p, b)
  {
    assert [a, b][..1] == [a];
  }

  lemma ScanPageThree(sc: Scope, st: ScanState, a: Kill, b: Kill, c: Kill)
    ensures var p := ScanPage(sc, st, [a, b]);
      ScanPage(sc, st, [a, b, c]) == if p.stopped then p else Examine(sc, p, c)
  {
    assert [a, b, c][..2] == [a, b];
  }

  class KillFetcher {
    /** The bot this fetcher hands kills to; its player list is the filter's. */
    const discordBot: DiscordBot
    const config: WatchConfig
    /** The highest event id seen at the head of the feed: the stop point. */
    var lastSeenEventId: int
    /** Insertion-ordered, bounded by MaxPublishedKeep. */
    var publishedEventIds: seq<int>

    ghost predicate Valid()
      reads this
    {
      Distinct(publishedEventIds) && |publishedEventIds| <= MaxPublishedKeep
    }

    constructor (bot: DiscordBot, cfg: WatchConfig)
      ensures Valid()
      ensures discordBot == bot && config == cfg
      ensures lastSeenEventId == 0 && publishedEventIds == []
    {
      discordBot := bot;
      config := cfg;
      lastSeenEventId := 0;
      publishedEventIds := [];
    }

    /** Both objects are valid, the bot has received exactly `queued` through
      `queueKill` at time `now`, starting from `queue0`, and its posted and
      in-flight sets are as given. */
    ghost predicate HandedOver(queue0: seq<Job>, posted: seq<int>, inFlight: set<int>, queued: seq<Kill>, now: int)
      reads this, discordBot
    {
      Valid() && discordBot.Valid() &&
      discordBot.postedEventIds == posted && discordBot.inFlightEventIds == inFlight &&
      discordBot.sendQueue == Enqueued(queue0, queued, posted, inFlight, now)
    }

    /** `_rememberPublished(id)`. */
    method RememberPublished(id: int)
      requires Valid()
      modifies this`publishedEventIds
      ensures Valid()
      ensures publishedEventIds == Remembered(old(publishedEventIds), id, MaxPublishedKeep)
    {
      RememberedDistinct(publishedEventIds, id, MaxPublishedKeep);
      publishedEventIds := Remember(publishedEventIds, id, MaxPublishedKeep);
    }

    /** The body of the inner loop of `_pollOnce` for one event: skip it, stop
      at the cursor, or hand it to the bot and remember its id. */
    method ScanKill(kill: Kill, queued0: seq<Kill>, now: int,
                    ghost sc: Scope, ghost queue0: seq<Job>, ghost posted: seq<int>, ghost inFlight: set<int>)
      returns (queued: seq<Kill>, stop: bool)
      requires sc == Scope(Filter(config, discordBot.playerNames), lastSeenEventId)
      requires HandedOver(queue0, posted, inFlight, queued0, now)
      modifies this`publishedEventIds, discordBot
      ensures Examine(sc, ScanState(old(publishedEventIds), queued0, false), kill) == ScanState(publishedEventIds, queued, stop)
      ensures HandedOver(queue0, posted, inFlight, queued, now)
    {
      queued, stop := queued0, false;
      var id := kill.eventId;
      if id == 0 {
        return;
      }
      if lastSeenEventId != 0 && id <= lastSeenEventId {
        // reached events already covered: stop scanning deeper offsets
        stop := true;
        return;
      }
      if id in publishedEventIds {
        return;
      }
      var verdict := MatchesFilters(config, discordBot.playerNames, kill);
      assert sc.accepts(kill) == verdict.ok;
      if !verdict.ok {
        return;
      }
      EnqueuedNext(queue0, queued0, kill, posted, inFlight, now);
      discordBot.QueueKill(kill, now);
      queued := queued0 + [kill];
      RememberPublished(id);
    }

    /** The inner loop of `_pollOnce` over one page: hand each new, unpublished,
      matching kill to the bot and remember its id, until the cursor. */
    method ScanKills(kills: seq<Kill>, queued0: seq<Kill>, now: int,
                     ghost sc: Scope, ghost queue0: seq<Job>, ghost posted: seq<int>, ghost inFlight: set<int>)
      returns (queued: seq<Kill>, stop: bool)
      requires sc == Scope(Filter(config, discordBot.playerNames), lastSeenEventId)
      requires HandedOver(queue0, posted, inFlight, queued0, now)
      modifies this`publishedEventIds, discordBot
      ensures ScanPage(sc, ScanState(old(publishedEventIds), queued0, false), kills) == ScanState(publishedEventIds, queued, stop)
      ensures HandedOver(queue0, posted, inFlight, queued, now)
    {
      ghost var st0 := ScanState(publishedEventIds, queued0, false);
      queued := queued0;
      stop := false;
      var i := 0;
      while i < |kills| && !stop
        invariant 0 <= i <= |kills|
        invariant ScanPage(sc, st0, kills[..i]) == ScanState(publishedEventIds, queued, stop)
        invariant HandedOver(queue0, posted, inFlight, queued, now)
      {
        ScanPageNext(sc, st0, kills, i);
        queued, stop := ScanKill(kills[i], queued, now, sc, queue0, posted, inFlight);
        i := i + 1;
      }
      ScanPageRest(sc, st0, kills, i);
    }

    /** The scan still to run from `offset` on, with this fetcher's ledger and
      `queued` so far, ends in `total`. */
    ghost predicate Resumes(sc: Scope, feed: Feed, total: Scan, calls: nat, offset: nat, queued: seq<Kill>)
      reads this
    {
      ScanFrom(sc, Pages(feed), calls, offset, ScanState(publishedEventIds, queued, false)) == total
    }

    /** The scan has ended in `total`: this fetcher's ledger, the kills handed
      over, the requests spent and the error agree with it. */
    ghost predicate Ends(total: Scan, calls: nat, queued: seq<Kill>, error: Option<string>)
      reads this
    {
      total.st.ledger == publishedEventIds && total.st.queued == queued && total.calls == calls && total.aborted == error
    }

    /** One turn of the page loop of `_pollOnce`: fetch the page at `offset`
      and scan it. `more` says whether the loop goes on to the next offset. */
    method ScanOffset(feed: Feed, calls: nat, offset: nat, queued: seq<Kill>, now: int,
                      ghost sc: Scope, ghost total: Scan,
                      ghost queue0: seq<Job>, ghost posted: seq<int>, ghost inFlight: set<int>)
      returns (queued': seq<Kill>, calls': nat, more: bool, error: Option<string>)
      requires offset <= MaxOffset
      requires sc == Scope(Filter(config, discordBot.playerNames), lastSeenEventId)
      requires Resumes(sc, feed, total, calls, offset, queued)
      requires HandedOver(queue0, posted, inFlight, queued, now)
      modifies this`publishedEventIds, discordBot
      ensures more ==> error == None && Resumes(sc, feed, total, calls', offset + PageSize, queued')
      ensures !more ==> Ends(total, calls', queued', error)
      ensures HandedOver(queue0, posted, inFlight, queued', now)
    {
      ghost var before := ScanState(publishedEventIds, queued, false);
      var page, used, waits := GetEventsPage(feed, calls, offset);
      ScanEnds(sc, feed, total, calls, offset, before, page, used);
      calls' := calls + used;
      queued', more, error := queued, false, None;
      if page.Err? {
        // the page could not be read: the poll throws
        error := Some(page.message);
      } else if |page.value| > 0 {
        var kills := page.value;
        var stop;
        queued', stop := ScanKills(kills, queued, now, sc, queue0, posted, inFlight);
        if !stop {
          ScanGoesOn(sc, feed, total, calls, offset, before, kills, used, ScanState(publishedEventIds, queued', false));
        }
        // past the cursor: no deeper offsets
        more := !stop;
      }
    }

    /** The page loop of `_pollOnce`: scan offsets 0, 51, ... up to 1000 until
      an empty page, the cursor, or a page that cannot be read. */
    method ScanOffsets(feed: Feed, now: int) returns (queued: seq<Kill>, calls: nat, error: Option<string>)
      requires Valid() && discordBot.Valid()
      modifies this`publishedEventIds, discordBot
      ensures Ends(ScanFrom(Scope(Filter(config, discordBot.playerNames), lastSeenEventId), Pages(feed), 0, 0,
                            ScanState(old(publishedEventIds), [], false)), calls, queued, error)
      ensures HandedOver(old(discordBot.sendQueue), old(discordBot.postedEventIds), old(discordBot.inFlightEventIds), queued, now)
    {
      ghost var sc := Scope(Filter(config, discordBot.playerNames), lastSeenEventId);
      ghost var total := ScanFrom(sc, Pages(feed), 0, 0, ScanState(publishedEventIds, [], false));
      ghost var queue0 := discordBot.sendQueue;
      ghost var posted := discordBot.postedEventIds;
      ghost var inFlight := discordBot.inFlightEventIds;
      queued := [];
      error := None;
      calls := 0;
      var offset := 0;
      var done := false;
      while offset <= MaxOffset && !done
        invariant !done ==> error == None && Resumes(sc, feed, total, calls, offset, queued)
        invariant done ==> Ends(total, calls, queued, error)
        invariant HandedOver(queue0, posted, inFlight, queued, now)
        decreases MaxOffset + PageSize - offset
      {
        var more;
        queued, calls, more, error := ScanOffset(feed, calls, offset, queued, now, sc, total, queue0, posted, inFlight);
        done := !more;
        offset := offset + PageSize;
      }
      if !done {
        ScanFromPastEnd(sc, Pages(feed), calls, offset, ScanState(publishedEventIds, queued, false));
      }
    }

    /** `_pollOnce()`, with every `queueKill` happening at time `now`. Returns
      the kills handed to the bot and the error the poll threw, if any. */
    method PollOnce(feed: Feed, now: int) returns (queued: seq<Kill>, error: Option<string>)
      requires Valid() && discordBot.Valid()
      modifies this, discordBot
      ensures Valid() && discordBot.Valid()
      ensures var p := Poll(Scope(Filter(config, discordBot.playerNames), old(lastSeenEventId)), old(publishedEventIds), feed);
        queued == p.queued && publishedEventIds == p.ledger && lastSeenEventId == p.lastSeen && error == p.error
      ensures discordBot.sendQueue ==
        Enqueued(old(discordBot.sendQueue), queued, old(discordBot.postedEventIds), old(discordBot.inFlightEventIds), now)
      ensures discordBot.postedEventIds == old(discordBot.postedEventIds)
      ensures discordBot.inFlightEventIds == old(discordBot.inFlightEventIds)
    {
      var calls;
      queued, calls, error := ScanOffsets(feed, now);
      if error.Some? {
        return;
      }
      // read the head page again and move the cursor up to its newest id
      var head, used, waits := GetEventsPage(feed, calls, 0);
      var newest := if head.Ok? && |head.value| > 0 then head.value[0].eventId else 0;
      if newest > lastSeenEventId {
        lastSeenEventId := newest;
      }
    }
  }
}
