/** The appointment reconciler's polling cursor: pages of at most a thousand events from a time
    that is cut to whole seconds, and why the cursor never skips an event. */
module Cursor {

  /** Times are nanoseconds; 0 is the zero time, before any event. */
  const SECOND := 1_000_000_000

  const LIMIT := 1000

  datatype Event = Event(id: nat, entity: string, action: string, time: int, payload: string)

  /** RFC 3339 without fractions keeps the second. */
  function Sec(t: int): int { t - t % SECOND }

  lemma SecFacts(a: int, b: int)
    ensures Sec(a) <= a < Sec(a) + SECOND
    ensures a <= b ==> Sec(a) <= Sec(b)
    ensures Sec(a) <= b <= a ==> Sec(b) == Sec(a)
  {
  }

  /** Rows are only added, with nondecreasing times: the order of the query is their order. */
  ghost predicate Chronological(rows: seq<Event>) {
    && (forall i :: 0 <= i < |rows| ==> rows[i].time >= 1)
    && (forall i, j :: 0 <= i < j < |rows| ==> rows[i].time <= rows[j].time && rows[i].id < rows[j].id)
  }

  predicate Wanted(e: Event) {
    e.entity == "appointment" && e.action == "create"
  }

  function Matching(rows: seq<Event>): seq<Event>
    decreases |rows|
  {
    if rows == [] then []
    else Matching(rows[..|rows| - 1]) + if Wanted(rows[|rows| - 1]) then [rows[|rows| - 1]] else []
  }

  /** How many events lie before a time. */
  function Before(evs: seq<Event>, since: int): (n: nat)
    ensures n <= |evs|
    ensures forall i :: 0 <= i < n ==> evs[i].time < since
    ensures n < |evs| ==> evs[n].time >= since
  {
    if evs == [] || evs[0].time >= since then 0 else 1 + Before(evs[1..], since)
  }

  function Capped(evs: seq<Event>, lo: nat): seq<Event>
    requires lo <= |evs|
  {
    evs[lo..if lo + LIMIT < |evs| then lo + LIMIT else |evs|]
  }

  /** The first thousand events from a time on. */
  function Page(evs: seq<Event>, since: int): seq<Event> {
    Capped(evs, Before(evs, since))
  }

  lemma BeforeIsUnique(evs: seq<Event>, since: int, n: nat)
    requires Chronological(evs) && n <= |evs|
    requires forall i :: 0 <= i < n ==> evs[i].time < since
    requires n < |evs| ==> evs[n].time >= since
    ensures Before(evs, since) == n
  {
    var lo := Before(evs, since);
    if lo < |evs| && n < |evs| {
      assert evs[lo].time >= since && evs[n].time >= since;
    }
  }

  lemma {:induction false} MatchingIsChronological(rows: seq<Event>)
    requires Chronological(rows)
    ensures Chronological(Matching(rows))
    ensures forall e :: e in Matching(rows) ==> e in rows
    decreases |rows|
  {
    if rows != [] {
      var init := rows[..|rows| - 1];
      MatchingIsChronological(init);
      forall i | 0 <= i < |Matching(init)|
        ensures Matching(init)[i].time <= rows[|rows| - 1].time && Matching(init)[i].id < rows[|rows| - 1].id
      {
        assert Matching(init)[i] in init;
      }
    }
  }

  /** The filter keeps the creations of appointments, and only those. */
  lemma {:induction false} MatchingIs(rows: seq<Event>, e: Event)
    ensures e in Matching(rows) <==> e in rows && e.entity == "appointment" && e.action == "create"
    decreases |rows|
  {
    if rows != [] {
      MatchingIs(rows[..|rows| - 1], e);
      assert rows == rows[..|rows| - 1] + [rows[|rows| - 1]];
    }
  }

  lemma {:induction false} MatchingGrows(rows: seq<Event>, longer: seq<Event>)
    requires rows <= longer
    ensures Matching(rows) <= Matching(longer)
    decreases |longer|
  {
    if |rows| < |longer| {
      MatchingGrows(rows, longer[..|longer| - 1]);
    } else {
      assert rows == longer;
    }
  }

  lemma BeforeGrows(evs: seq<Event>, e: Event, since: int)
    requires Chronological(evs + [e])
    ensures var lo := Before(evs, since);
      && (lo < |evs| ==> e.time >= since)
      && Before(evs + [e], since) == if lo == |evs| && e.time < since then lo + 1 else lo
  {
    var all := evs + [e];
    var lo := Before(evs, since);
    assert forall i :: 0 <= i < |evs| ==> all[i] == evs[i];
    assert lo < |evs| ==> all[lo].time <= all[|evs|].time;
    BeforeIsUnique(all, since, if lo == |evs| && e.time < since then lo + 1 else lo);
  }

  lemma CappedGrows(evs: seq<Event>, e: Event, lo: nat)
    requires lo <= |evs|
    ensures Capped(evs + [e], lo) == Capped(evs, lo) + if |Capped(evs, lo)| < LIMIT then [e] else []
    ensures Capped(evs + [e], |evs| + 1) == []
  {
  }

  /** One more event joins the page when it is recent enough and the page has room. */
  lemma PageGrows(evs: seq<Event>, e: Event, since: int)
    requires Chronological(evs + [e])
    ensures Page(evs + [e], since) ==
      Page(evs, since) + if e.time >= since && |Page(evs, since)| < LIMIT then [e] else []
  {
    hide Before, Capped, Chronological;
    BeforeGrows(evs, e, since);
    CappedGrows(evs, e, Before(evs, since));
    NothingLeft(evs);
    assert Page(evs, since) + [] == Page(evs, since);
  }

  lemma NothingLeft(evs: seq<Event>)
    ensures Capped(evs, |evs|) == []
  {
  }

  lemma OneMoreRow(rows: seq<Event>, i: nat)
    requires Chronological(rows) && i < |rows|
    ensures Matching(rows[..i + 1]) == Matching(rows[..i]) + if Wanted(rows[i]) then [rows[i]] else []
    ensures Chronological(Matching(rows[..i + 1]))
  {
    assert rows[..i + 1][..i] == rows[..i];
    assert Chronological(rows[..i + 1]);
    MatchingIsChronological(rows[..i + 1]);
  }

  lemma NothingMatches(since: int)
    ensures Page(Matching([]), since) == []
  {
  }

  /** WHERE entity AND action AND created_at >= since ORDER BY created_at, id LIMIT 1000. */
  method ListEvents(rows: seq<Event>, since: int) returns (out: seq<Event>)
    requires Chronological(rows)
    ensures out == Page(Matching(rows), since)
  {
    hide Page, Matching, Chronological;
    out := [];
    var i := 0;
    NothingMatches(since);
    while i < |rows|
      invariant 0 <= i <= |rows|
      invariant out == Page(Matching(rows[..i]), since)
    {
      OneMoreRow(rows, i);
      if Wanted(rows[i]) {
        PageGrows(Matching(rows[..i]), rows[i], since);
        if rows[i].time >= since && |out| < LIMIT {
          out := out + [rows[i]];
        }
      }
      assert !Wanted(rows[i]) ==> Matching(rows[..i]) + [] == Matching(rows[..i]);
      i := i + 1;
    }
    assert rows[..i] == rows;
  }

  // ----- the cursor ---------------------------------------------------------------------------

  function Elements(evs: seq<Event>): set<Event> { set e | e in evs }

  /** The cursor after a page. */
  function NextSince(page: seq<Event>, since: int): int {
    if page == [] then since else page[|page| - 1].time
  }

  class PeerCursor {
    var since: int
    ghost var seen: set<Event>

    constructor ()
      ensures since == 0 && seen == {}
    {
      since, seen := 0, {};
    }

    /** Fetch from the cursor's second on, then move the cursor to the greatest time received. */
    method Poll(rows: seq<Event>)
      requires Chronological(rows)
      modifies this
      ensures var page := Page(Matching(rows), Sec(old(since)));
        since == NextSince(page, old(since)) && seen == old(seen) + Elements(page)
    {
      var page := ListEvents(rows, Sec(since));
      MatchingIsChronological(rows);
      var maxTS, i := 0, 0;
      while i < |page|
        invariant 0 <= i <= |page|
        invariant maxTS == if i == 0 then 0 else page[i - 1].time
      {
        if page[i].time > maxTS { maxTS := page[i].time; }
        i := i + 1;
      }
      seen := seen + Elements(page);
      if maxTS != 0 { since := maxTS; }
    }
  }

  // ----- no gaps --------------------------------------------------------------------------------

  /** Exactly the first d events have been delivered, and the cursor is in the second of the last. */
  ghost predicate Delivered(evs: seq<Event>, since: int, seen: set<Event>, d: nat) {
    && d <= |evs| && seen == Elements(evs[..d])
    && (if d == 0 then since == 0 else Sec(since) == Sec(evs[d - 1].time))
  }

  function CountInSecond(evs: seq<Event>, second: int): nat
    decreases |evs|
  {
    if evs == [] then 0
    else CountInSecond(evs[..|evs| - 1], second) + if Sec(evs[|evs| - 1].time) == second then 1 else 0
  }

  /** The query starts at the first delivered event of the cursor's second, never past d. */
  lemma PageStart(evs: seq<Event>, since: int, seen: set<Event>, d: nat)
    requires Chronological(evs) && Delivered(evs, since, seen, d)
    ensures Before(evs, Sec(since)) <= d
    ensures d > 0 ==> Before(evs, Sec(since)) < d
    ensures forall i :: Before(evs, Sec(since)) <= i < d ==> Sec(evs[i].time) == Sec(since)
    ensures forall i :: 0 <= i < Before(evs, Sec(since)) ==> Sec(evs[i].time) < Sec(since)
  {
    var lo := Before(evs, Sec(since));
    if d > 0 {
      SecFacts(evs[d - 1].time, since);
      assert evs[d - 1].time >= Sec(since);
      forall i | lo <= i < d ensures Sec(evs[i].time) == Sec(since) {
        assert evs[lo].time <= evs[i].time <= evs[d - 1].time;
        SecFacts(evs[d - 1].time, evs[i].time);
      }
    }
    forall i | 0 <= i < lo ensures Sec(evs[i].time) < Sec(since) {
      SecFacts(evs[i].time, since);
    }
  }

  lemma {:induction false} CountDelivered(evs: seq<Event>, second: int, lo: nat, d: nat)
    requires lo <= d <= |evs|
    requires forall i :: lo <= i < d ==> Sec(evs[i].time) == second
    requires forall i :: 0 <= i < lo ==> Sec(evs[i].time) < second
    ensures CountInSecond(evs[..d], second) == d - lo
    decreases d
  {
    hide Sec;
    if d > 0 {
      assert evs[..d][..d - 1] == evs[..d - 1];
      CountDelivered(evs, second, if lo == d then d - 1 else lo, d - 1);
    }
  }

  /** A poll delivers a longer prefix or the same one.  It is longer exactly when events remain
      and fewer than a thousand delivered ones fall in the cursor's second. */
  lemma PollDelivers(evs: seq<Event>, since: int, seen: set<Event>, d: nat) returns (next: nat)
    requires Chronological(evs) && Delivered(evs, since, seen, d)
    ensures var page := Page(evs, Sec(since));
      Delivered(evs, NextSince(page, since), seen + Elements(page), next)
    ensures next >= d
    ensures next > d <==> d < |evs| && CountInSecond(evs[..d], Sec(since)) < LIMIT
  {
    hide Sec, CountInSecond, Chronological, Elements;
    PageStart(evs, since, seen, d);
    var lo := Before(evs, Sec(since));
    CountDelivered(evs, Sec(since), lo, d);
    var hi := if lo + LIMIT < |evs| then lo + LIMIT else |evs|;
    next := if hi > d then hi else d;
    PrefixUnion(evs, lo, hi, d);
    CursorFollows(evs, since, d, lo, hi);
  }

  /** The last event of a page is in the second of the last one delivered. */
  lemma CursorFollows(evs: seq<Event>, since: int, d: nat, lo: nat, hi: nat)
    requires lo <= d <= |evs| && lo <= hi <= |evs| && (d > 0 ==> lo < d)
    requires if d == 0 then since == 0 else Sec(since) == Sec(evs[d - 1].time)
    requires forall i :: lo <= i < d ==> Sec(evs[i].time) == Sec(since)
    ensures var next := if hi > d then hi else d;
      if next == 0 then NextSince(evs[lo..hi], since) == 0
      else Sec(NextSince(evs[lo..hi], since)) == Sec(evs[next - 1].time)
  {
    hide Sec;
    if hi > lo {
      assert evs[lo..hi][hi - lo - 1] == evs[hi - 1];
    }
  }

  lemma PrefixUnion(evs: seq<Event>, lo: nat, hi: nat, d: nat)
    requires lo <= d <= |evs| && lo <= hi <= |evs|
    ensures Elements(evs[..d]) + Elements(evs[lo..hi]) == Elements(evs[..if hi > d then hi else d])
  {
    var top := if hi > d then hi else d;
    forall e | e in Elements(evs[..top]) ensures e in Elements(evs[..d]) + Elements(evs[lo..hi]) {
      var i :| 0 <= i < top && evs[..top][i] == e;
      if i < d { assert evs[..d][i] == e; } else { assert evs[lo..hi][i - lo] == e; }
    }
  }

  // ----- whole runs -------------------------------------------------------------------------------

  datatype Step = Grow(rows: seq<Event>) | Poll

  datatype Site = Site(rows: seq<Event>, since: int, seen: set<Event>)

  /** Rows are only added; an unreachable peer is a poll that does not happen. */
  ghost predicate Possible(s: Site, step: Step) {
    step.Grow? ==> s.rows <= step.rows && Chronological(step.rows)
  }

  function Take(s: Site, step: Step): Site {
    match step
    case Grow(rows) => s.(rows := rows)
    case Poll =>
      var page := Page(Matching(s.rows), Sec(s.since));
      s.(since := NextSince(page, s.since), seen := s.seen + Elements(page))
  }

  ghost predicate AllPossible(s: Site, steps: seq<Step>)
    decreases |steps|
  {
    steps == [] || (Possible(s, steps[0]) && AllPossible(Take(s, steps[0]), steps[1..]))
  }

  function TakeAll(s: Site, steps: seq<Step>): Site
    decreases |steps|
  {
    if steps == [] then s else TakeAll(Take(s, steps[0]), steps[1..])
  }

  ghost predicate PrefixSeen(s: Site, d: nat) {
    Chronological(s.rows) && Delivered(Matching(s.rows), s.since, s.seen, d)
  }

  lemma StepKeepsPrefix(s: Site, step: Step, d: nat) returns (next: nat)
    requires PrefixSeen(s, d) && Possible(s, step)
    ensures PrefixSeen(Take(s, step), next) && next >= d
    ensures step.Poll? ==>
      (next > d <==> d < |Matching(s.rows)| && CountInSecond(Matching(s.rows)[..d], Sec(s.since)) < LIMIT)
  {
    MatchingIsChronological(s.rows);
    match step
    case Grow(rows) =>
      next := d;
      MatchingGrows(s.rows, rows);
      assert Matching(rows)[..d] == Matching(s.rows)[..d];
    case Poll =>
      next := PollDelivers(Matching(s.rows), s.since, s.seen, d);
  }

  /** Whatever is added between polls, the delivered events are always a prefix, and it never
      shrinks: nothing is ever skipped. */
  lemma {:induction false} NoGaps(s: Site, steps: seq<Step>, d: nat) returns (end: nat)
    requires PrefixSeen(s, d) && AllPossible(s, steps)
    ensures PrefixSeen(TakeAll(s, steps), end) && end >= d
    decreases |steps|
  {
    end := d;
    if steps != [] {
      hide PrefixSeen, Take, Possible;
      var next := StepKeepsPrefix(s, steps[0], d);
      end := NoGaps(Take(s, steps[0]), steps[1..], next);
    }
  }

  /** With a thousand delivered events in the cursor's second the cursor is stuck for good,
      whatever is added later. */
  lemma {:induction false} StuckForever(s: Site, steps: seq<Step>, d: nat)
    requires PrefixSeen(s, d) && AllPossible(s, steps)
    requires CountInSecond(Matching(s.rows)[..d], Sec(s.since)) >= LIMIT
    ensures PrefixSeen(TakeAll(s, steps), d)
    decreases |steps|
  {
    if steps != [] {
      var next := StepKeepsPrefix(s, steps[0], d);
      StuckStays(s, steps[0], d);
      hide PrefixSeen, Take, Possible, CountInSecond, Sec;
      StuckForever(Take(s, steps[0]), steps[1..], d);
    }
  }

  lemma {:induction false} FewerInPrefix(evs: seq<Event>, d: nat, second: int)
    requires d <= |evs|
    ensures CountInSecond(evs[..d], second) <= CountInSecond(evs, second)
    decreases |evs|
  {
    if d == |evs| {
      assert evs[..d] == evs;
    } else {
      assert evs[..|evs| - 1][..d] == evs[..d];
      FewerInPrefix(evs[..|evs| - 1], d, second);
    }
  }

  /** When no second holds a thousand events, one poll for each event still to come is enough to
      deliver them all. */
  lemma {:induction false} PollsCatchUp(s: Site, d: nat, polls: seq<Step>)
    requires PrefixSeen(s, d) && |polls| >= |Matching(s.rows)| - d && forall i :: 0 <= i < |polls| ==> polls[i].Poll?
    requires forall second :: CountInSecond(Matching(s.rows), second) < LIMIT
    ensures PrefixSeen(TakeAll(s, polls), |Matching(s.rows)|)
    decreases |polls|
  {
    if polls != [] {
      var next := StepKeepsPrefix(s, Poll, d);
      FewerInPrefix(Matching(s.rows), d, Sec(s.since));
      hide CountInSecond, Sec, Page, Chronological, Capped;
      PollsCatchUp(Take(s, Poll), next, polls[1..]);
    }
  }

  lemma {:induction false} AllMatch(rows: seq<Event>)
    requires forall i :: 0 <= i < |rows| ==> Wanted(rows[i])
    ensures Matching(rows) == rows
    decreases |rows|
  {
    if rows != [] {
      AllMatch(rows[..|rows| - 1]);
      assert rows == rows[..|rows| - 1] + [rows[|rows| - 1]];
    }
  }

  /** A thousand and one events in one second. */
  function Burst(): seq<Event> {
    seq(LIMIT + 1, i requires 0 <= i => Event(i, "appointment", "create", SECOND, ""))
  }

  lemma BurstMatches()
    ensures |Burst()| == LIMIT + 1 && Chronological(Burst()) && Matching(Burst()) == Burst()
    ensures forall i :: 0 <= i < |Burst()| ==> Burst()[i].time == SECOND && Burst()[i].id == i
  {
    AllMatch(Burst());
  }

  lemma FirstPollOfBurst()
    ensures var polled := Take(Site(Burst(), 0, {}), Poll);
      && PrefixSeen(polled, LIMIT) && polled.rows == Burst()
      && CountInSecond(Matching(Burst())[..LIMIT], Sec(polled.since)) >= LIMIT
  {
    hide Before, Burst, Matching, CountInSecond, Chronological, Page, NextSince, Elements, Sec;
    BurstMatches();
    var evs := Burst();
    FirstPage(evs);
    WholeSeconds();
    assert evs[..LIMIT][LIMIT - 1] == evs[LIMIT - 1];
    LastOfPage(evs[..LIMIT], 0);
    NoneSeen(evs[..LIMIT]);
    CountDelivered(evs, SECOND, 0, LIMIT);
  }

  lemma WholeSeconds()
    ensures Sec(0) == 0 && Sec(SECOND) == SECOND
  {
  }

  lemma FirstPage(evs: seq<Event>)
    requires Chronological(evs) && |evs| == LIMIT + 1
    ensures Page(evs, Sec(0)) == evs[..LIMIT]
  {
    hide Before;
    WholeSeconds();
    BeforeIsUnique(evs, Sec(0), 0);
    assert evs[0..LIMIT] == evs[..LIMIT];
  }

  lemma LastOfPage(page: seq<Event>, since: int)
    requires page != []
    ensures NextSince(page, since) == page[|page| - 1].time
  {
  }

  lemma NoneSeen(page: seq<Event>)
    ensures {} + Elements(page) == Elements(page)
  {
  }

  lemma {:induction false} RowsGrow(s: Site, steps: seq<Step>)
    requires AllPossible(s, steps)
    ensures s.rows <= TakeAll(s, steps).rows
    decreases |steps|
  {
    if steps != [] {
      hide Page, Matching, Chronological;
      RowsGrow(Take(s, steps[0]), steps[1..]);
    }
  }

  /** From a fresh cursor the first poll of the burst delivers a thousand events, and no later
      poll ever delivers the last one, whatever is added. */
  lemma BurstIsNeverDelivered(steps: seq<Step>)
    requires AllPossible(Take(Site(Burst(), 0, {}), Poll), steps)
    ensures var end := TakeAll(Take(Site(Burst(), 0, {}), Poll), steps);
      Burst()[LIMIT] in Matching(end.rows) && Burst()[LIMIT] !in end.seen
  {
    var polled := Take(Site(Burst(), 0, {}), Poll);
    FirstPollOfBurst();
    BurstMatches();
    hide Burst, Take, TakeAll, AllPossible, Matching, CountInSecond, Chronological;
    StuckForever(polled, steps, LIMIT);
    RowsGrow(polled, steps);
    var end := TakeAll(polled, steps);
    MatchingGrows(Burst(), end.rows);
    var evs := Matching(end.rows);
    assert evs[LIMIT] == Burst()[LIMIT];
    forall e | e in end.seen ensures e != Burst()[LIMIT] {
      var i :| 0 <= i < LIMIT && evs[..LIMIT][i] == e;
      assert e == Burst()[i];
    }
  }

  lemma StuckStays(s: Site, step: Step, d: nat)
    requires PrefixSeen(s, d) && Possible(s, step)
    requires CountInSecond(Matching(s.rows)[..d], Sec(s.since)) >= LIMIT
    ensures var after := Take(s, step);
      PrefixSeen(after, d) && CountInSecond(Matching(after.rows)[..d], Sec(after.since)) >= LIMIT
  {
    hide Matching, Page, CountInSecond, NextSince, Elements, Chronological, Sec;
    MatchingIsChronological(s.rows);
    match step
    case Grow(rows) =>
      MatchingGrows(s.rows, rows);
      assert Matching(rows)[..d] == Matching(s.rows)[..d];
    case Poll =>
      var next := PollDelivers(Matching(s.rows), s.since, s.seen, d);
      NothingInSecond(Matching(s.rows), Sec(s.since), d);
  }

  lemma NothingInSecond(evs: seq<Event>, second: int, d: nat)
    requires d <= |evs| && CountInSecond(evs[..d], second) >= LIMIT
    ensures d > 0
  {
  }
}
