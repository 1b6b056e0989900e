/**
 * The client-side visit counter of hooks/useVisitTracker.ts.
 *
 * Browser-local storage is a `Storage` object with one typed field per key
 * (`visitStats`, `visitorId`, `visitHistory`, `pageId`); a value that is not
 * stored is `None`. One mounted instance of the hook is a `Tracker`, whose
 * `stats` field is the hook's React state. Clock readings, random suffixes and
 * the window location come in as an `Environment`.
 *
 * `AfterVisit` is the store after one mount effect, as a function of the store
 * before it; `Tracker.RecordVisit` is proved to produce exactly that state, and
 * the lemmas below state what the source promises about it.
 */
module VisitTracker {
  import opened JsValues
  import opened Strings

  datatype VisitStats = VisitStats(totalVisits: nat, uniqueVisitors: nat, lastVisit: string)

  datatype VisitData = VisitData(date: string, visits: nat)

  /** The stats used when nothing is stored, and the ones a reset stores. */
  const ZeroStats := VisitStats(0, 0, "")

  /** Number of daily entries the history keeps. */
  const MaxHistoryDays := 30

  const MillisPerDay := 1000 * 60 * 60 * 24

  /** What one mount reads from the clock, the random generator and the window location. */
  datatype Environment = Environment(
    idMillis: nat,       // clock in milliseconds when a visitor id is minted
    idRandom: string,    // nine base-36 random characters of the visitor id
    visitIso: string,    // ISO timestamp stored as lastVisit
    todayIso: string,    // a second ISO timestamp, whose date part keys the history
    hostname: string,    // host name of the page location
    pathname: string,    // path of the page location
    pageMillis: nat,     // clock in milliseconds when a page id is generated
    pageRandom: string)  // six base-36 random characters of the page id

  /** The contents of the four storage keys; `None` is a key that is not stored. */
  datatype StoreState = StoreState(
    visitStats: Option<VisitStats>,
    visitorId: Option<string>,
    visitHistory: Option<seq<VisitData>>,
    pageId: Option<string>)

  /** A fresh browser profile. */
  const EmptyStore := StoreState(None, None, None, None)

  /** The stored stats, or zero stats when the key is not stored. */
  function LoadStats(o: Option<VisitStats>): VisitStats {
    match o
    case None => ZeroStats
    case Some(s) => s
  }

  /** The stored history, or the empty history when the key is not stored. */
  function LoadHistory(o: Option<seq<VisitData>>): seq<VisitData> {
    match o
    case None => []
    case Some(h) => h
  }

  /** The index of the first `T` at or after position `i`, or the length when there is none. */
  function FirstT(iso: string, i: nat): (r: nat)
    requires i <= |iso|
    ensures i <= r <= |iso|
    ensures forall j :: i <= j < r ==> iso[j] != 'T'
    ensures r < |iso| ==> iso[r] == 'T'
    decreases |iso| - i
  {
    if i == |iso| || iso[i] == 'T' then i else FirstT(iso, i + 1)
  }

  /** The date part of a timestamp: everything before its first `T`. */
  function DatePart(iso: string): (r: string)
    ensures 'T' !in r
    ensures r <= iso
    ensures |r| < |iso| ==> iso[|r|] == 'T'
  {
    var n := FirstT(iso, 0);
    assert forall j :: 0 <= j < n ==> iso[..n][j] != 'T';
    iso[..n]
  }

  /** The date part of an ISO timestamp `<date>T<time>` is the date. */
  lemma DatePartOfTimestamp(date: string, time: string)
    requires 'T' !in date
    ensures DatePart(date + "T" + time) == date
  {
    var iso := date + "T" + time;
    var n := FirstT(iso, 0);
    assert iso[|date|] == 'T';
    if n < |date| {
      assert false;
    }
    assert iso[..|date|] == date;
  }

  /** The first index whose entry has the given date, or -1 when there is none. */
  function FindIndex(h: seq<VisitData>, date: string): (r: int)
    ensures -1 <= r < |h|
    ensures r == -1 <==> forall i :: 0 <= i < |h| ==> h[i].date != date
    ensures r >= 0 ==> h[r].date == date && forall i :: 0 <= i < r ==> h[i].date != date
  {
    if |h| == 0 then -1
    else if h[0].date == date then 0
    else
      var k := FindIndex(h[1..], date);
      if k == -1 then -1 else k + 1
  }

  /** Find today's entry and increment it, or append a new entry with one visit. */
  function AddVisit(h: seq<VisitData>, today: string): seq<VisitData> {
    var i := FindIndex(h, today);
    if i >= 0 then h[i := h[i].(visits := h[i].visits + 1)] else h + [VisitData(today, 1)]
  }

  /** Drop entries from the front until at most 30 remain: the most recent 30 are kept. */
  function KeepRecent(h: seq<VisitData>): (r: seq<VisitData>)
    ensures |r| <= MaxHistoryDays
    ensures |r| == if |h| < MaxHistoryDays then |h| else MaxHistoryDays
    ensures forall i :: 0 <= i < |r| ==> r[i] == h[|h| - |r| + i]
  {
    if |h| > MaxHistoryDays then h[|h| - MaxHistoryDays..] else h
  }

  predicate IsAlphaNumeric(c: char) {
    'a' <= c <= 'z' || 'A' <= c <= 'Z' || '0' <= c <= '9'
  }

  /** Every character outside `[a-zA-Z0-9]` becomes an underscore. */
  function SanitizeId(s: string): (r: string)
    ensures |r| == |s|
    ensures forall i :: 0 <= i < |s| ==> r[i] == (if IsAlphaNumeric(s[i]) then s[i] else '_')
    ensures forall i :: 0 <= i < |r| ==> IsAlphaNumeric(r[i]) || r[i] == '_'
  {
    if |s| == 0 then "" else [if IsAlphaNumeric(s[0]) then s[0] else '_'] + SanitizeId(s[1..])
  }

  /** The visitor id minted on first sight. */
  function NewVisitorId(env: Environment): (id: string)
    ensures id != ""
  {
    "visitor_" + NatToString(env.idMillis) + "_" + env.idRandom
  }

  /** The page id `generatePageId` builds when none is stored: location, day number, random suffix. */
  function NewPageId(env: Environment): (id: string)
    ensures id != ""
  {
    SanitizeId(env.hostname + env.pathname) + "_" + NatToString(env.pageMillis / MillisPerDay) + "_" + env.pageRandom
  }

  /** The stats one visit stores. */
  function NextStats(s: StoreState, env: Environment): (st: VisitStats)
    ensures st.totalVisits == LoadStats(s.visitStats).totalVisits + 1
    ensures st.uniqueVisitors == LoadStats(s.visitStats).uniqueVisitors + if Falsy(s.visitorId) then 1 else 0
    ensures st.lastVisit == env.visitIso
  {
    var loaded := LoadStats(s.visitStats);
    var unique := if Falsy(s.visitorId) then loaded.uniqueVisitors + 1 else loaded.uniqueVisitors;
    VisitStats(loaded.totalVisits + 1, unique, env.visitIso)
  }

  /** The history one visit stores. */
  function NextHistory(s: StoreState, env: Environment): seq<VisitData> {
    KeepRecent(AddVisit(LoadHistory(s.visitHistory), DatePart(env.todayIso)))
  }

  /** The store after the mount effect of the hook has run once. */
  function AfterVisit(s: StoreState, env: Environment): (t: StoreState)
    ensures t.visitStats == Some(NextStats(s, env))
    ensures t.visitHistory == Some(NextHistory(s, env))
    ensures |t.visitHistory.value| <= MaxHistoryDays
    ensures !Falsy(t.visitorId)
    ensures Falsy(s.visitorId) ==> t.visitorId == Some(NewVisitorId(env))
    ensures !Falsy(s.visitorId) ==> t.visitorId == s.visitorId
    ensures !Falsy(t.pageId)
    ensures Falsy(s.pageId) ==> t.pageId == Some(NewPageId(env))
    ensures !Falsy(s.pageId) ==> t.pageId == s.pageId
  {
    StoreState(
      Some(NextStats(s, env)),
      if Falsy(s.visitorId) then Some(NewVisitorId(env)) else s.visitorId,
      Some(NextHistory(s, env)),
      if Falsy(s.pageId) then Some(NewPageId(env)) else s.pageId)
  }

  /** The store after `resetStats`; the page id is left alone. */
  function AfterReset(s: StoreState): (t: StoreState)
    ensures LoadStats(t.visitStats) == ZeroStats && LoadHistory(t.visitHistory) == []
    ensures Falsy(t.visitorId)
    ensures t.pageId == s.pageId
  {
    StoreState(Some(ZeroStats), None, Some([]), s.pageId)
  }

  /** The store after one mount per environment, in order. */
  function Visits(s: StoreState, envs: seq<Environment>): StoreState {
    if |envs| == 0 then s else AfterVisit(Visits(s, envs[..|envs| - 1]), envs[|envs| - 1])
  }

  predicate DistinctDates(h: seq<VisitData>) {
    forall i, j :: 0 <= i < j < |h| ==> h[i].date != h[j].date
  }

  function Dates(h: seq<VisitData>): set<string> {
    set i | 0 <= i < |h| :: h[i].date
  }

  /** Total number of visits recorded in a history. */
  function Sum(h: seq<VisitData>): nat {
    if |h| == 0 then 0 else Sum(h[..|h| - 1]) + h[|h| - 1].visits
  }

  // ---------------------------------------------------------------------------
  // Find-or-append

  /** When today has an entry, only the first such entry changes, and only its count goes up by one. */
  lemma AddVisitExisting(h: seq<VisitData>, today: string, i: nat)
    requires i < |h| && h[i].date == today
    ensures var r := AddVisit(h, today);
      && |r| == |h|
      && exists k :: 0 <= k <= i && h[k].date == today && r == h[k := VisitData(today, h[k].visits + 1)]
  {
    var k := FindIndex(h, today);
    assert 0 <= k <= i;
  }

  /** With distinct dates, the entry that changes is the one carrying today's date. */
  lemma AddVisitExistingDistinct(h: seq<VisitData>, today: string, i: nat)
    requires DistinctDates(h)
    requires i < |h| && h[i].date == today
    ensures AddVisit(h, today) == h[i := VisitData(today, h[i].visits + 1)]
  {
    var k := FindIndex(h, today);
    assert k == i;
  }

  /** When today has no entry, `{date: today, visits: 1}` is appended at the end. */
  lemma AddVisitNew(h: seq<VisitData>, today: string)
    requires today !in Dates(h)
    ensures AddVisit(h, today) == h + [VisitData(today, 1)]
  {
    forall i | 0 <= i < |h| ensures h[i].date != today {
      assert h[i].date in Dates(h);
    }
  }

  /** Find-or-append keeps the dates pairwise distinct and adds today to them. */
  lemma AddVisitDistinct(h: seq<VisitData>, today: string)
    requires DistinctDates(h)
    ensures DistinctDates(AddVisit(h, today))
    ensures Dates(AddVisit(h, today)) == Dates(h) + {today}
  {
    var r := AddVisit(h, today);
    var k := FindIndex(h, today);
    if k >= 0 {
      forall d | d in Dates(r) ensures d in Dates(h) + {today} {
        var j :| 0 <= j < |r| && r[j].date == d;
        assert r[j].date == h[j].date;
      }
      forall d | d in Dates(h) + {today} ensures d in Dates(r) {
        if d == today {
          assert r[k].date == d;
        } else {
          var j :| 0 <= j < |h| && h[j].date == d;
          assert r[j].date == d;
        }
      }
    } else {
      forall d | d in Dates(r) ensures d in Dates(h) + {today} {
        var j :| 0 <= j < |r| && r[j].date == d;
        if j < |h| { assert r[j] == h[j]; }
      }
      forall d | d in Dates(h) + {today} ensures d in Dates(r) {
        if d == today {
          assert r[|h|].date == d;
        } else {
          var j :| 0 <= j < |h| && h[j].date == d;
          assert r[j].date == d;
        }
      }
    }
  }

  lemma {:induction false} SumUpdate(h: seq<VisitData>, i: nat, x: VisitData)
    requires i < |h|
    ensures Sum(h[i := x]) + h[i].visits == Sum(h) + x.visits
  {
    var n := |h|;
    var u := h[i := x];
    if i == n - 1 {
      assert u[..n - 1] == h[..n - 1];
    } else {
      SumUpdate(h[..n - 1], i, x);
      assert u[..n - 1] == h[..n - 1][i := x];
    }
  }

  lemma SumAppend(h: seq<VisitData>, x: VisitData)
    ensures Sum(h + [x]) == Sum(h) + x.visits
  {
    assert (h + [x])[..|h|] == h;
  }

  /** Every visit adds exactly one to the visits counted in the (untrimmed) history. */
  lemma AddVisitSum(h: seq<VisitData>, today: string)
    ensures Sum(AddVisit(h, today)) == Sum(h) + 1
  {
    var k := FindIndex(h, today);
    if k >= 0 {
      SumUpdate(h, k, h[k].(visits := h[k].visits + 1));
    } else {
      SumAppend(h, VisitData(today, 1));
    }
  }

  // ---------------------------------------------------------------------------
  // Truncation

  /** Truncating a history with distinct dates keeps them distinct. */
  lemma KeepRecentDistinct(h: seq<VisitData>)
    requires DistinctDates(h)
    ensures DistinctDates(KeepRecent(h))
  {
    if |h| > MaxHistoryDays {
      SuffixDistinct(h, |h| - MaxHistoryDays);
    }
  }

  /** Any suffix of a history with distinct dates has distinct dates. */
  lemma SuffixDistinct(h: seq<VisitData>, d: nat)
    requires d <= |h|
    requires DistinctDates(h)
    ensures DistinctDates(h[d..])
  {
    var r := h[d..];
    forall i, j | 0 <= i < j < |r| ensures r[i].date != r[j].date {
      assert r[i] == h[d + i];
      assert r[j] == h[d + j];
    }
  }

  /** A new day on a full history evicts the oldest entry. */
  lemma NewDayEvictsOldest(h: seq<VisitData>, today: string)
    requires |h| == MaxHistoryDays
    requires today !in Dates(h)
    ensures KeepRecent(AddVisit(h, today)) == h[1..] + [VisitData(today, 1)]
  {
    AddVisitNew(h, today);
    var a := h + [VisitData(today, 1)];
    assert a[1..] == h[1..] + [VisitData(today, 1)];
  }

  // ---------------------------------------------------------------------------
  // Whole visits

  /** A visit keeps the stored history free of duplicate dates. */
  lemma AfterVisitDistinctDates(s: StoreState, env: Environment)
    requires DistinctDates(LoadHistory(s.visitHistory))
    ensures DistinctDates(LoadHistory(AfterVisit(s, env).visitHistory))
  {
    var h := LoadHistory(s.visitHistory);
    AddVisitDistinct(h, DatePart(env.todayIso));
    KeepRecentDistinct(AddVisit(h, DatePart(env.todayIso)));
  }

  /** Visits by a known visitor add one total visit each and no unique visitor. */
  lemma {:induction false} ReturningVisits(s: StoreState, envs: seq<Environment>)
    requires !Falsy(s.visitorId)
    ensures var t := Visits(s, envs);
      && t.visitorId == s.visitorId
      && LoadStats(t.visitStats).totalVisits == LoadStats(s.visitStats).totalVisits + |envs|
      && LoadStats(t.visitStats).uniqueVisitors == LoadStats(s.visitStats).uniqueVisitors
  {
    if |envs| > 0 {
      ReturningVisits(s, envs[..|envs| - 1]);
    }
  }

  /** N visits from a fresh browser profile count N visits and one unique visitor. */
  lemma {:induction false} FreshVisits(envs: seq<Environment>)
    requires |envs| > 0
    ensures LoadStats(Visits(EmptyStore, envs).visitStats).totalVisits == |envs|
    ensures LoadStats(Visits(EmptyStore, envs).visitStats).uniqueVisitors == 1
  {
    var head, tail := [envs[0]], envs[1..];
    assert head + tail == envs;
    VisitsSplit(EmptyStore, head, tail);
    OneVisit(EmptyStore, envs[0]);
    var first := AfterVisit(EmptyStore, envs[0]);
    assert LoadStats(first.visitStats) == NextStats(EmptyStore, envs[0]);
    ReturningVisits(first, tail);
    var t := Visits(first, tail);
    assert Visits(EmptyStore, envs) == t;
    assert LoadStats(t.visitStats).totalVisits == 1 + |tail|;
  }

  /** A sequence of one visit is that visit. */
  lemma OneVisit(s: StoreState, env: Environment)
    ensures Visits(s, [env]) == AfterVisit(s, env)
  {
    assert [env][..0] == [];
  }

  /** The last visit of a sequence runs on the store the earlier ones leave. */
  lemma VisitsLast(s: StoreState, envs: seq<Environment>)
    requires |envs| > 0
    ensures Visits(s, envs) == AfterVisit(Visits(s, envs[..|envs| - 1]), envs[|envs| - 1])
  {
  }

  /** Running visits one batch after another is running them all. */
  lemma {:induction false} VisitsSplit(s: StoreState, xs: seq<Environment>, ys: seq<Environment>)
    ensures Visits(s, xs + ys) == Visits(Visits(s, xs), ys)
  {
    var zs := xs + ys;
    if |ys| == 0 {
      assert zs == xs;
    } else {
      var init := ys[..|ys| - 1];
      assert zs[..|zs| - 1] == xs + init;
      VisitsSplit(s, xs, init);
      VisitsLast(s, zs);
      VisitsLast(Visits(s, xs), ys);
    }
  }

  /** The first visit of a day on an empty history leaves one entry with one visit. */
  lemma FirstEntry(today: string)
    ensures KeepRecent(AddVisit([], today)) == [VisitData(today, 1)]
  {
    assert FindIndex([], today) == -1;
  }

  /** A second visit on a day whose entry is the only one raises that entry to two visits. */
  lemma SecondEntry(today: string)
    ensures KeepRecent(AddVisit([VisitData(today, 1)], today)) == [VisitData(today, 2)]
  {
    assert FindIndex([VisitData(today, 1)], today) == 0;
  }

  /** The first visit on a fresh profile counts one visit by one visitor and starts a one-entry history. */
  lemma FirstVisit(env: Environment)
    ensures AfterVisit(EmptyStore, env).visitHistory == Some([VisitData(DatePart(env.todayIso), 1)])
    ensures AfterVisit(EmptyStore, env).visitStats == Some(VisitStats(1, 1, env.visitIso))
  {
    FirstEntry(DatePart(env.todayIso));
    assert LoadHistory(EmptyStore.visitHistory) == [];
  }

  /** Two visits on one calendar day from a fresh profile leave exactly one entry with two visits. */
  lemma SameDayTwice(e1: Environment, e2: Environment)
    requires DatePart(e1.todayIso) == DatePart(e2.todayIso)
    ensures AfterVisit(AfterVisit(EmptyStore, e1), e2).visitHistory == Some([VisitData(DatePart(e1.todayIso), 2)])
    ensures AfterVisit(AfterVisit(EmptyStore, e1), e2).visitStats == Some(VisitStats(2, 1, e2.visitIso))
  {
    var today := DatePart(e1.todayIso);
    var s1 := AfterVisit(EmptyStore, e1);
    FirstVisit(e1);
    assert LoadHistory(s1.visitHistory) == [VisitData(today, 1)];
    assert LoadStats(s1.visitStats) == VisitStats(1, 1, e1.visitIso);
    SecondEntry(today);
    assert NextHistory(s1, e2) == [VisitData(today, 2)];
  }

  /** After a reset, one visit counts one visit by one unique visitor and a one-entry history. */
  lemma ResetThenVisit(s: StoreState, env: Environment)
    ensures AfterVisit(AfterReset(s), env).visitStats == Some(VisitStats(1, 1, env.visitIso))
    ensures AfterVisit(AfterReset(s), env).visitHistory == Some([VisitData(DatePart(env.todayIso), 1)])
  {
    var r := AfterReset(s);
    assert LoadStats(r.visitStats) == ZeroStats && Falsy(r.visitorId);
    assert LoadHistory(r.visitHistory) == [];
    FirstEntry(DatePart(env.todayIso));
    assert NextHistory(r, env) == [VisitData(DatePart(env.todayIso), 1)];
  }

  /** A stored page id survives every later visit unchanged. */
  lemma {:induction false} PageIdStable(s: StoreState, envs: seq<Environment>)
    requires !Falsy(s.pageId)
    ensures Visits(s, envs).pageId == s.pageId
  {
    if |envs| > 0 {
      PageIdStable(s, envs[..|envs| - 1]);
    }
  }

  // ---------------------------------------------------------------------------
  // The imperative hook

  /** Browser-local storage, one field per key the tracker uses. */
  class Storage {
    var visitStats: Option<VisitStats>
    var visitorId: Option<string>
    var visitHistory: Option<seq<VisitData>>
    var pageId: Option<string>

    /** A fresh browser profile: no key is stored. */
    constructor ()
      ensures State() == EmptyStore
    {
      visitStats, visitorId, visitHistory, pageId := None, None, None, None;
    }

    function State(): StoreState
      reads this
    {
      StoreState(visitStats, visitorId, visitHistory, pageId)
    }
  }

  /** One mounted instance of the hook: its React state and the storage it uses. */
  class Tracker {
    const store: Storage
    var stats: VisitStats

    /** `useState` starts from zero stats. */
    constructor (store: Storage)
      ensures this.store == store && stats == ZeroStats
    {
      this.store := store;
      stats := ZeroStats;
    }

    /** The mount effect: count the visit, update today's entry, trim, store, and publish the stats. */
    method RecordVisit(env: Environment)
      modifies this, store
      ensures store.State() == AfterVisit(old(store.State()), env)
      ensures store.visitStats == Some(stats)
    {
      var currentStats := LoadStats(store.visitStats);

      var visitorId := store.visitorId;
      if Falsy(visitorId) {
        visitorId := Some(NewVisitorId(env));
        store.visitorId := visitorId;
        currentStats := currentStats.(uniqueVisitors := currentStats.uniqueVisitors + 1);
      }

      currentStats := currentStats.(totalVisits := currentStats.totalVisits + 1);
      currentStats := currentStats.(lastVisit := env.visitIso);

      var today := DatePart(env.todayIso);
      var visitHistory := LoadHistory(store.visitHistory);
      var todayIndex := FindIndex(visitHistory, today);
      if todayIndex >= 0 {
        visitHistory := visitHistory[todayIndex := visitHistory[todayIndex].(visits := visitHistory[todayIndex].visits + 1)];
      } else {
        visitHistory := visitHistory + [VisitData(today, 1)];
      }

      if |visitHistory| > MaxHistoryDays {
        visitHistory := visitHistory[|visitHistory| - MaxHistoryDays..];
      }

      store.visitStats := Some(currentStats);
      store.visitHistory := Some(visitHistory);

      var pageId: string;
      if Falsy(store.pageId) {
        pageId := GeneratePageId(env);
      } else {
        pageId := store.pageId.value;
      }
      store.pageId := Some(pageId);

      stats := currentStats;
    }

    /** `generatePageId`: reuse the stored page id, or build one and store it. */
    method GeneratePageId(env: Environment) returns (pageId: string)
      modifies store
      ensures !Falsy(old(store.pageId)) ==> pageId == old(store.pageId).value
      ensures Falsy(old(store.pageId)) ==> pageId == NewPageId(env)
      ensures store.State() == old(store.State()).(pageId := Some(pageId))
    {
      var stored := store.pageId;
      if Falsy(stored) {
        var stableId := SanitizeId(env.hostname + env.pathname);
        var timestamp := env.pageMillis / MillisPerDay;
        pageId := stableId + "_" + NatToString(timestamp) + "_" + env.pageRandom;
        store.pageId := Some(pageId);
      } else {
        pageId := stored.value;
        store.pageId := Some(pageId);
      }
    }

    /** `getVisitHistory`: the stored history, or the empty one. */
    method GetVisitHistory() returns (h: seq<VisitData>)
      ensures store.visitHistory.None? ==> h == []
      ensures store.visitHistory.Some? ==> h == store.visitHistory.value
    {
      h := LoadHistory(store.visitHistory);
    }

    /** `resetStats`: zero stats, empty history, visitor id removed. */
    method ResetStats()
      modifies this, store
      ensures store.visitStats == Some(ZeroStats) && store.visitHistory == Some([])
      ensures store.visitorId == None && store.pageId == old(store.pageId)
      ensures store.State() == AfterReset(old(store.State()))
      ensures stats == ZeroStats
    {
      store.visitStats := Some(ZeroStats);
      store.visitHistory := Some([]);
      store.visitorId := None;
      stats := ZeroStats;
    }
  }

  /**
   * A fresh browser profile, two page loads on the same day: the history
   * reads one entry with one visit, then one entry with two.
   */
  method SameDayScenario(e1: Environment, e2: Environment) returns (first: seq<VisitData>, second: seq<VisitData>)
    requires DatePart(e1.todayIso) == DatePart(e2.todayIso)
    ensures first == [VisitData(DatePart(e1.todayIso), 1)]
    ensures second == [VisitData(DatePart(e1.todayIso), 2)]
  {
    FirstVisit(e1);
    SameDayTwice(e1, e2);
    var store := new Storage();
    var mount1 := new Tracker(store);
    mount1.RecordVisit(e1);
    ghost var s1 := store.State();
    assert s1 == AfterVisit(EmptyStore, e1);
    first := mount1.GetVisitHistory();
    var mount2 := new Tracker(store);
    mount2.RecordVisit(e2);
    assert store.State() == AfterVisit(s1, e2);
    second := mount2.GetVisitHistory();
  }

  /** A reset followed by a page load, on any store: one visit by one unique visitor. */
  method ResetScenario(store: Storage, env: Environment) returns (stats: VisitStats, history: seq<VisitData>)
    modifies store
    ensures stats == VisitStats(1, 1, env.visitIso)
    ensures history == [VisitData(DatePart(env.todayIso), 1)]
  {
    var admin := new Tracker(store);
    admin.ResetStats();
    ghost var reset := store.State();
    var mount := new Tracker(store);
    mount.RecordVisit(env);
    ResetThenVisit(reset, env);
    stats := mount.stats;
    history := mount.GetVisitHistory();
  }
}
