/** The static-campaign data layer: validation, creation, the lifecycle,
    statistics, owner-scoped queries and the cascading delete, over an
    in-memory store whose tables are sequences of rows. */
module Models {
  import opened Types
  import opened Tables

  // ---------------------------------------------------------------------------
  // Selections used by the store's queries
  // ---------------------------------------------------------------------------

  /** The primary key of the campaign table. */
  function CampaignKey(c: StaticCampaign): int { c.id }

  /** `campaigns WHERE user_id = uid` */
  function OwnedBy(cs: seq<StaticCampaign>, uid: int): seq<StaticCampaign> {
    Filter(cs, (c: StaticCampaign) => c.userId == uid)
  }

  /** `campaigns WHERE launch_date <= t AND status = Queued` */
  function DueQueued(cs: seq<StaticCampaign>, t: Time): seq<StaticCampaign> {
    Filter(cs, (c: StaticCampaign) => c.launchDate <= t && c.status == Queued)
  }

  /** `results WHERE campaign_id = cid` */
  function ResultsOf(rs: seq<Result>, cid: int): seq<Result> {
    Filter(rs, (r: Result) => r.campaignId == cid)
  }

  /** `results WHERE campaign_id = cid AND status = st` */
  function ResultsWithStatus(rs: seq<Result>, cid: int, st: ResultStatus): seq<Result> {
    Filter(rs, (r: Result) => r.campaignId == cid && r.status == st)
  }

  /** `results WHERE campaign_id = cid AND user_id = uid` */
  function OwnedResultsOf(rs: seq<Result>, cid: int, uid: int): seq<Result> {
    Filter(rs, (r: Result) => r.campaignId == cid && r.userId == uid)
  }

  /** `events WHERE campaign_id = cid` */
  function EventsOf(es: seq<Event>, cid: int): seq<Event> {
    Filter(es, (e: Event) => e.campaignId == cid)
  }

  /** `mail_logs WHERE campaign_id = cid` */
  function MailLogsOf(ms: seq<MailLog>, cid: int): seq<MailLog> {
    Filter(ms, (m: MailLog) => m.campaignId == cid)
  }

  /** What each delete statement of the cascade leaves behind. */
  function PurgeResults(rs: seq<Result>, cid: int): seq<Result> {
    Filter(rs, (r: Result) => r.campaignId != cid)
  }

  function PurgeEvents(es: seq<Event>, cid: int): seq<Event> {
    Filter(es, (e: Event) => e.campaignId != cid)
  }

  function PurgeMailLogs(ms: seq<MailLog>, cid: int): seq<MailLog> {
    Filter(ms, (m: MailLog) => m.campaignId != cid)
  }

  function PurgeCampaigns(cs: seq<StaticCampaign>, id: int): seq<StaticCampaign> {
    Filter(cs, (c: StaticCampaign) => c.id != id)
  }

  /** The owner-scoped fetch `campaigns WHERE id = id AND user_id = uid` into one struct. */
  function Lookup(cs: seq<StaticCampaign>, id: int, uid: int): (r: Option<StaticCampaign>)
    ensures r.Some? ==> r.value in cs && r.value.id == id && r.value.userId == uid
    ensures r.None? <==> forall c :: c in cs ==> !(c.id == id && c.userId == uid)
  {
    match FirstIndex(cs, (c: StaticCampaign) => c.id == id && c.userId == uid)
    case None => None
    case Some(i) => Some(cs[i])
  }

  // ---------------------------------------------------------------------------
  // Validation and creation
  // ---------------------------------------------------------------------------

  /** The checks a submitted campaign must pass, in order; the first failing one is reported. */
  function Validate(c: StaticCampaign): (r: Option<Error>)
    ensures r.None? <==> c.name != "" && c.page.name != "" && c.launchDate == ZeroTime
    ensures c.name == "" ==> r == Some(CampaignNameNotSpecified)
    ensures r == Some(PageNotSpecified) <==> c.name != "" && c.page.name == ""
    ensures r == Some(InvalidSendByDate) <==> c.name != "" && c.page.name != "" && c.launchDate != ZeroTime
  {
    if c.name == "" then Some(CampaignNameNotSpecified)
    else if c.page.name == "" then Some(PageNotSpecified)
    else if c.launchDate != ZeroTime then Some(InvalidSendByDate)
    else None
  }

  /** The details filled in before a campaign is stored: owner, dates and initial status. */
  function Stamp(c: StaticCampaign, uid: int, now: Time): (r: StaticCampaign)
    ensures r.userId == uid && r.createdDate == now && r.completedDate == ZeroTime
    ensures r.launchDate == if c.launchDate == ZeroTime then r.createdDate else c.launchDate
    ensures r.status == InProgress <==> r.launchDate <= r.createdDate
    ensures r.status == Queued <==> r.createdDate < r.launchDate
    ensures r == c.(userId := r.userId, createdDate := r.createdDate, completedDate := r.completedDate,
                    launchDate := r.launchDate, status := r.status)
    ensures Validate(c).None? ==> r.status == InProgress && r.launchDate == r.createdDate
  {
    var launch := if c.launchDate == ZeroTime then now else c.launchDate;
    c.(userId := uid, createdDate := now, completedDate := ZeroTime, launchDate := launch,
       status := if launch <= now then InProgress else Queued)
  }

  // ---------------------------------------------------------------------------
  // Completion and status updates
  // ---------------------------------------------------------------------------

  /** Completing a campaign: a no-op on a completed one, so the first completion date is kept. */
  function MarkComplete(c: StaticCampaign, now: Time): (r: StaticCampaign)
    ensures r.status == Complete
    ensures r.completedDate == if c.status == Complete then c.completedDate else now
    ensures r == c.(status := Complete, completedDate := r.completedDate)
  {
    if c.status == Complete then c else c.(completedDate := now, status := Complete)
  }

  /** The campaign table after completing the rows matching `id` and `uid`. */
  function CompleteWhere(cs: seq<StaticCampaign>, id: int, uid: int, now: Time): seq<StaticCampaign> {
    UpdateWhere(cs, (c: StaticCampaign) => c.id == id && c.userId == uid,
                (c: StaticCampaign) => MarkComplete(c, now))
  }

  /** The campaign table after `UPDATE campaigns SET status = s WHERE id = id`. */
  function SetStatusWhere(cs: seq<StaticCampaign>, id: int, s: CampaignStatus): seq<StaticCampaign> {
    UpdateWhere(cs, (c: StaticCampaign) => c.id == id, (c: StaticCampaign) => c.(status := s))
  }

  /** The error of completing campaign `id` of user `uid`: the fetch's, not-found, or that of
      the save, which is skipped for a campaign already complete. */
  function CompleteError(cs: seq<StaticCampaign>, id: int, uid: int, faults: set<Stmt>): Option<Error> {
    if SelectCampaign(id, uid) in faults then Some(StoreFailure(SelectCampaign(id, uid)))
    else if Lookup(cs, id, uid).None? then Some(RecordNotFound)
    else if Lookup(cs, id, uid).value.status == Complete then None
    else if SaveCampaign(id) in faults then Some(StoreFailure(SaveCampaign(id)))
    else None
  }

  /** Completing twice, at any two instants, is the same as completing once. */
  lemma CompleteIdempotent(cs: seq<StaticCampaign>, id: int, uid: int, t1: Time, t2: Time)
    ensures CompleteWhere(CompleteWhere(cs, id, uid, t1), id, uid, t2) == CompleteWhere(cs, id, uid, t1)
  {
  }

  /** Completion touches only the matching rows, never reopens or re-dates a completed one. */
  lemma CompleteOnlyMatching(cs: seq<StaticCampaign>, id: int, uid: int, now: Time, i: nat)
    requires i < |cs|
    ensures |CompleteWhere(cs, id, uid, now)| == |cs|
    ensures !(cs[i].id == id && cs[i].userId == uid) ==> CompleteWhere(cs, id, uid, now)[i] == cs[i]
    ensures cs[i].status == Complete ==> CompleteWhere(cs, id, uid, now)[i] == cs[i]
    ensures cs[i].id == id && cs[i].userId == uid ==>
              CompleteWhere(cs, id, uid, now)[i].status == Complete
  {
  }

  // ---------------------------------------------------------------------------
  // The cascading delete
  // ---------------------------------------------------------------------------

  /** The four statements of the cascade, in the order they are issued. */
  function DeleteSteps(id: int): seq<Stmt> {
    [DeleteResults(id), DeleteEvents(id), DeleteMailLogs(id), DeleteCampaign(id)]
  }

  /** How many statements of `steps` run to completion before the first failing one. */
  function StepsDone(steps: seq<Stmt>, faults: set<Stmt>): (n: nat)
    ensures n <= |steps|
    ensures forall i :: 0 <= i < n ==> steps[i] !in faults
    ensures n < |steps| ==> steps[n] in faults
  {
    if steps == [] || steps[0] in faults then 0 else 1 + StepsDone(steps[1..], faults)
  }

  /** The cascade stops at its first failing statement. */
  lemma DeleteStepsDone(id: int, faults: set<Stmt>)
    ensures StepsDone(DeleteSteps(id), faults) ==
              if DeleteResults(id) in faults then 0
              else if DeleteEvents(id) in faults then 1
              else if DeleteMailLogs(id) in faults then 2
              else if DeleteCampaign(id) in faults then 3
              else 4
  {
    var s0 := DeleteSteps(id);
    var s1, s2, s3 := s0[1..], s0[2..], s0[3..];
    assert s1[1..] == s2 && s2[1..] == s3 && s3[1..] == [];
    assert StepsDone(s3, faults) == if DeleteCampaign(id) in faults then 0 else 1;
    assert StepsDone(s2, faults) == if DeleteMailLogs(id) in faults then 0 else 1 + StepsDone(s3, faults);
    assert StepsDone(s1, faults) == if DeleteEvents(id) in faults then 0 else 1 + StepsDone(s2, faults);
  }

  /** The error of the cascade: none when all four statements ran, else the first failing one's. */
  function DeleteError(id: int, faults: set<Stmt>): Option<Error> {
    if StepsDone(DeleteSteps(id), faults) == 4 then None
    else Some(StoreFailure(DeleteSteps(id)[StepsDone(DeleteSteps(id), faults)]))
  }

  /** Deleting one campaign's rows leaves every other campaign's rows as they were, in order. */
  lemma {:induction false} PurgeKeepsOtherCampaigns(rs: seq<Result>, es: seq<Event>, ms: seq<MailLog>,
                                                   id: int, cid: int)
    requires cid != id
    ensures ResultsOf(PurgeResults(rs, id), cid) == ResultsOf(rs, cid)
    ensures EventsOf(PurgeEvents(es, id), cid) == EventsOf(es, cid)
    ensures MailLogsOf(PurgeMailLogs(ms, id), cid) == MailLogsOf(ms, cid)
  {
    FilterOfFilter(rs, (r: Result) => r.campaignId != id, (r: Result) => r.campaignId == cid);
    FilterOfFilter(es, (e: Event) => e.campaignId != id, (e: Event) => e.campaignId == cid);
    FilterOfFilter(ms, (m: MailLog) => m.campaignId != id, (m: MailLog) => m.campaignId == cid);
  }

  /** After the cascade nothing of the deleted campaign can be found. */
  lemma PurgeLeavesNothing(rs: seq<Result>, es: seq<Event>, ms: seq<MailLog>,
                           cs: seq<StaticCampaign>, id: int, uid: int)
    ensures ResultsOf(PurgeResults(rs, id), id) == []
    ensures EventsOf(PurgeEvents(es, id), id) == []
    ensures MailLogsOf(PurgeMailLogs(ms, id), id) == []
    ensures Lookup(PurgeCampaigns(cs, id), id, uid) == None
  {
    FilterExcluded(rs, (r: Result) => r.campaignId != id, (r: Result) => r.campaignId == id);
    FilterExcluded(es, (e: Event) => e.campaignId != id, (e: Event) => e.campaignId == id);
    FilterExcluded(ms, (m: MailLog) => m.campaignId != id, (m: MailLog) => m.campaignId == id);
  }

  // ---------------------------------------------------------------------------
  // Summaries
  // ---------------------------------------------------------------------------

  /** A summary as scanned from the columns id, name, created_date, completed_date and
      status; launch_date is not selected and stays zero. */
  function SummaryOf(c: StaticCampaign, s: Stats): Summary {
    Summary(c.id, c.createdDate, ZeroTime, c.completedDate, c.status, c.name, s)
  }

  /** Statistics are consistent: submitters are counted among the clickers, who are among the results. */
  predicate StatsConsistent(s: Stats) {
    0 <= s.submittedData <= s.clickedLink <= s.total && s.error == 0
  }

  // ---------------------------------------------------------------------------
  // The store
  // ---------------------------------------------------------------------------

  /** The database: one sequence of rows per table, and the next auto-increment keys. */
  class Store {
    var campaigns: seq<StaticCampaign>
    var results: seq<Result>
    var events: seq<Event>
    var mailLogs: seq<MailLog>
    var pages: seq<Page>
    var nextCampaignId: int
    var nextEventId: int

    /** Campaign rows hold columns only and have distinct positive keys below the next key. */
    ghost predicate Valid()
      reads this
    {
      && (forall c :: c in campaigns ==> IsRow(c) && 0 < c.id < nextCampaignId)
      && DistinctKeys(campaigns, CampaignKey)
      && (forall e :: e in events ==> 0 < e.id < nextEventId)
      && 0 < nextCampaignId && 0 < nextEventId
    }

    constructor (pages: seq<Page>)
      ensures Valid()
      ensures this.pages == pages
      ensures campaigns == [] && results == [] && events == [] && mailLogs == []
    {
      this.pages := pages;
      campaigns, results, events, mailLogs := [], [], [], [];
      nextCampaignId, nextEventId := 1, 1;
    }

    /** The page lookup by name, scoped to the owner (GetPageByName is not part of this model). */
    function PageByName(name: string, uid: int, faults: set<Stmt>): (r: Fallible<Page>)
      reads this
      ensures SelectPageByName(name, uid) in faults ==>
                r.err == Some(StoreFailure(SelectPageByName(name, uid)))
      ensures r.err.None? ==> r.val in pages && r.val.name == name && r.val.userId == uid
      ensures r.err == Some(RecordNotFound) <==>
                SelectPageByName(name, uid) !in faults &&
                forall p :: p in pages ==> !(p.name == name && p.userId == uid)
    {
      if SelectPageByName(name, uid) in faults then
        Fallible(NoPage, Some(StoreFailure(SelectPageByName(name, uid))))
      else match FirstIndex(pages, (p: Page) => p.name == name && p.userId == uid)
        case None => Fallible(NoPage, Some(RecordNotFound))
        case Some(i) => Fallible(pages[i], None)
    }

    /** Loads a campaign's results, events and page; a page that no longer exists is
        replaced by the "[Deleted]" placeholder and is not an error. */
    function GetDetails(c: StaticCampaign, faults: set<Stmt>): (r: Fallible<StaticCampaign>)
      reads this
      ensures AsRow(r.val) == AsRow(c)
      ensures r.err.Some? <==>
                SelectResults(c.id) in faults || SelectEvents(c.id) in faults || SelectPage(c.pageId) in faults
      ensures r.err.Some? ==> r.err.value.StoreFailure?
      ensures SelectResults(c.id) !in faults ==> r.val.results == ResultsOf(results, c.id)
      ensures SelectResults(c.id) !in faults && SelectEvents(c.id) !in faults ==>
                r.val.events == EventsOf(events, c.id)
      ensures r.err.None? && (forall p :: p in pages ==> p.id != c.pageId) ==> r.val.page == DeletedPage
      ensures r.err.None? && (exists p :: p in pages && p.id == c.pageId) ==>
                r.val.page in pages && r.val.page.id == c.pageId
    {
      if SelectResults(c.id) in faults then
        Fallible(c, Some(StoreFailure(SelectResults(c.id))))
      else
        var c1 := c.(results := ResultsOf(results, c.id));
        if SelectEvents(c.id) in faults then
          Fallible(c1, Some(StoreFailure(SelectEvents(c.id))))
        else
          var c2 := c1.(events := EventsOf(events, c.id));
          if SelectPage(c.pageId) in faults then
            Fallible(c2, Some(StoreFailure(SelectPage(c.pageId))))
          else match FirstIndex(pages, (p: Page) => p.id == c.pageId)
            case None => Fallible(c2.(page := DeletedPage), None)
            case Some(i) => Fallible(c2.(page := pages[i]), None)
    }

    /** Counts a campaign's results, its submitters and its clickers; only the first count can
        fail the call, a failing second or third count leaves its figure at zero. */
    function GetStaticCampaignStats(cid: int, faults: set<Stmt>): (r: Fallible<Stats>)
      reads this
      ensures r.err.Some? <==> CountResults(cid) in faults
      ensures r.err.Some? ==> r.val == ZeroStats && r.err == Some(StoreFailure(CountResults(cid)))
      ensures r.err.None? ==> r.val.total == |ResultsOf(results, cid)|
      ensures r.err.None? ==>
                r.val.submittedData ==
                  (if CountSubmitted(cid) in faults then 0 else |ResultsWithStatus(results, cid, DataSubmitted)|)
      ensures r.err.None? ==>
                r.val.clickedLink == r.val.submittedData +
                  (if CountClicked(cid) in faults then 0 else |ResultsWithStatus(results, cid, ClickedLink)|)
      ensures StatsConsistent(r.val)
    {
      if CountResults(cid) in faults then
        Fallible(ZeroStats, Some(StoreFailure(CountResults(cid))))
      else
        var total := |ResultsOf(results, cid)|;
        var submitted := if CountSubmitted(cid) in faults then 0
                         else |ResultsWithStatus(results, cid, DataSubmitted)|;
        var clicked := if CountClicked(cid) in faults then 0
                       else |ResultsWithStatus(results, cid, ClickedLink)|;
        FilterCountDisjoint(results,
          (r: Result) => r.campaignId == cid && r.status == DataSubmitted,
          (r: Result) => r.campaignId == cid && r.status == ClickedLink,
          (r: Result) => r.campaignId == cid);
        Fallible(Stats(total, clicked + submitted, submitted, 0), None)
    }

    /** Loads the details of every campaign in `cs`, in place; the error returned is that of the
        last campaign loaded, so earlier failures are only logged. */
    method LoadDetails(cs: seq<StaticCampaign>, err0: Option<Error>, faults: set<Stmt>)
      returns (ds: seq<StaticCampaign>, err: Option<Error>)
      ensures |ds| == |cs|
      ensures forall i :: 0 <= i < |cs| ==> ds[i] == GetDetails(cs[i], faults).val
      ensures forall i :: 0 <= i < |cs| ==> AsRow(ds[i]) == AsRow(cs[i])
      ensures err == if cs == [] then err0 else GetDetails(cs[|cs| - 1], faults).err
    {
      ds, err := cs, err0;
      var i := 0;
      while i < |ds|
        invariant 0 <= i <= |ds| == |cs|
        invariant forall j :: 0 <= j < i ==> ds[j] == GetDetails(cs[j], faults).val
        invariant forall j :: i <= j < |ds| ==> ds[j] == cs[j]
        invariant err == if i == 0 then err0 else GetDetails(cs[i - 1], faults).err
      {
        var d := GetDetails(ds[i], faults);
        ds := ds[i := d.val];
        err := d.err;
        i := i + 1;
      }
    }

    /** The campaigns of user `uid`, each with its details. */
    method GetStaticCampaigns(uid: int, faults: set<Stmt>) returns (cs: seq<StaticCampaign>, err: Option<Error>)
      requires Valid()
      ensures forall c :: c in cs ==> c.userId == uid
      ensures SelectOwnedCampaigns(uid) in faults ==>
                cs == [] && err == Some(StoreFailure(SelectOwnedCampaigns(uid)))
      ensures SelectOwnedCampaigns(uid) !in faults ==>
                |cs| == |OwnedBy(campaigns, uid)| &&
                (forall i :: 0 <= i < |cs| ==> AsRow(cs[i]) == OwnedBy(campaigns, uid)[i]) &&
                (forall i :: 0 <= i < |cs| ==> cs[i] == GetDetails(OwnedBy(campaigns, uid)[i], faults).val)
      ensures SelectOwnedCampaigns(uid) !in faults ==>
                forall c :: c in campaigns && c.userId == uid ==> exists i :: 0 <= i < |cs| && AsRow(cs[i]) == c
      // Earlier detail failures are only logged: the error is the last campaign's.
      ensures SelectOwnedCampaigns(uid) !in faults ==>
                err == if OwnedBy(campaigns, uid) == [] then None
                       else GetDetails(OwnedBy(campaigns, uid)[|OwnedBy(campaigns, uid)| - 1], faults).err
    {
      var rows: seq<StaticCampaign> := [];
      var err0: Option<Error> := None;
      if SelectOwnedCampaigns(uid) in faults {
        err0 := Some(StoreFailure(SelectOwnedCampaigns(uid)));
      } else {
        rows := OwnedBy(campaigns, uid);
      }
      cs, err := LoadDetails(rows, err0, faults);
      LoadedRows(rows, cs);
    }

    /** The queued campaigns whose launch date has come by `t`, of every user, each with its details. */
    method GetStaticQueuedCampaigns(t: Time, faults: set<Stmt>) returns (cs: seq<StaticCampaign>, err: Option<Error>)
      requires Valid()
      ensures forall c :: c in cs ==> c.status == Queued && c.launchDate <= t
      ensures SelectQueued(t) in faults ==> cs == [] && err == Some(StoreFailure(SelectQueued(t)))
      ensures SelectQueued(t) !in faults ==>
                |cs| == |DueQueued(campaigns, t)| &&
                (forall i :: 0 <= i < |cs| ==> AsRow(cs[i]) == DueQueued(campaigns, t)[i]) &&
                (forall i :: 0 <= i < |cs| ==> cs[i] == GetDetails(DueQueued(campaigns, t)[i], faults).val)
      ensures SelectQueued(t) !in faults ==>
                forall c :: c in campaigns && c.status == Queued && c.launchDate <= t ==>
                  exists i :: 0 <= i < |cs| && AsRow(cs[i]) == c
      ensures SelectQueued(t) !in faults ==>
                err == if DueQueued(campaigns, t) == [] then None
                       else GetDetails(DueQueued(campaigns, t)[|DueQueued(campaigns, t)| - 1], faults).err
    {
      var rows: seq<StaticCampaign> := [];
      var err0: Option<Error> := None;
      if SelectQueued(t) in faults {
        err0 := Some(StoreFailure(SelectQueued(t)));
      } else {
        rows := DueQueued(campaigns, t);
      }
      cs, err := LoadDetails(rows, err0, faults);
      LoadedRows(rows, cs);
    }

    /** The error of the summary list: the scan's, else that of the first campaign of the user,
        in table order, whose first count fails. */
    function SummariesError(uid: int, faults: set<Stmt>): Option<Error>
      reads this
    {
      if ScanSummaries(uid) in faults then Some(StoreFailure(ScanSummaries(uid)))
      else match FirstIndex(OwnedBy(campaigns, uid), (c: StaticCampaign) => CountResults(c.id) in faults)
        case None => None
        case Some(k) => Some(StoreFailure(CountResults(OwnedBy(campaigns, uid)[k].id)))
    }

    /** The summaries of user `uid`'s campaigns with their statistics; any failing first count
        fails the whole call. */
    method GetStaticCampaignSummaries(uid: int, faults: set<Stmt>) returns (overview: Summaries, err: Option<Error>)
      ensures err.Some? ==> overview == Summaries(0, []) && err.value.StoreFailure?
      ensures err == SummariesError(uid, faults)
      ensures err.None? ==>
                overview.total == |overview.campaigns| == |OwnedBy(campaigns, uid)| &&
                forall i :: 0 <= i < |overview.campaigns| ==>
                  overview.campaigns[i] == SummaryOf(OwnedBy(campaigns, uid)[i],
                                                     GetStaticCampaignStats(OwnedBy(campaigns, uid)[i].id, faults).val)
      ensures err.Some? <==>
                ScanSummaries(uid) in faults ||
                exists i :: 0 <= i < |OwnedBy(campaigns, uid)| && CountResults(OwnedBy(campaigns, uid)[i].id) in faults
      ensures forall s :: s in overview.campaigns ==> StatsConsistent(s.stats)
      ensures forall s :: s in overview.campaigns ==> s.launchDate == ZeroTime
    {
      overview := Summaries(0, []);
      if ScanSummaries(uid) in faults {
        err := Some(StoreFailure(ScanSummaries(uid)));
        return;
      }
      var rows := OwnedBy(campaigns, uid);
      var cs := seq(|rows|, j requires 0 <= j < |rows| => SummaryOf(rows[j], ZeroStats));
      var i := 0;
      while i < |cs|
        invariant 0 <= i <= |cs| == |rows|
        invariant forall j :: 0 <= j < i ==>
                    cs[j] == SummaryOf(rows[j], GetStaticCampaignStats(rows[j].id, faults).val)
        invariant forall j :: i <= j < |cs| ==> cs[j] == SummaryOf(rows[j], ZeroStats)
        invariant forall j :: 0 <= j < i ==> CountResults(rows[j].id) !in faults
      {
        var s := GetStaticCampaignStats(cs[i].id, faults);
        if s.err.Some? {
          FirstFailingCount(rows, faults, i);
          err := s.err;
          return;
        }
        cs := cs[i := cs[i].(stats := s.val)];
        i := i + 1;
      }
      overview := Summaries(|cs|, cs);
      FirstFailingCount(rows, faults, |rows|);
      err := None;
    }

    /** The summary of campaign `id` if user `uid` owns it; otherwise the record is not found. */
    method GetStaticCampaignSummary(id: int, uid: int, faults: set<Stmt>) returns (s: Summary, err: Option<Error>)
      ensures err.None? ==>
                Lookup(campaigns, id, uid).Some? && s.id == id &&
                s == SummaryOf(Lookup(campaigns, id, uid).value, GetStaticCampaignStats(id, faults).val)
      ensures err == Some(RecordNotFound) <==> ScanSummary(id, uid) !in faults && Lookup(campaigns, id, uid).None?
      ensures Lookup(campaigns, id, uid).None? ==> err.Some? && s == ZeroSummary
      ensures Lookup(campaigns, id, uid).Some? && ScanSummary(id, uid) !in faults ==>
                (err.Some? <==> CountResults(id) in faults)
      ensures ScanSummary(id, uid) in faults ==> err == Some(StoreFailure(ScanSummary(id, uid)))
      ensures Lookup(campaigns, id, uid).Some? && ScanSummary(id, uid) !in faults && CountResults(id) in faults ==>
                err == Some(StoreFailure(CountResults(id)))
      ensures StatsConsistent(s.stats)
      ensures s.launchDate == ZeroTime
    {
      if ScanSummary(id, uid) in faults {
        return ZeroSummary, Some(StoreFailure(ScanSummary(id, uid)));
      }
      var found := Lookup(campaigns, id, uid);
      if found.None? {
        return ZeroSummary, Some(RecordNotFound);
      }
      s := SummaryOf(found.value, ZeroStats);
      var st := GetStaticCampaignStats(s.id, faults);
      if st.err.Some? {
        return s, st.err;
      }
      s := s.(stats := st.val);
      err := None;
    }

    /** Whether fetching campaign `id` of user `uid` with its details fails: the fetch statement
        fails, the user owns no such campaign, or loading a detail fails. */
    predicate FetchFails(id: int, uid: int, faults: set<Stmt>)
      reads this
    {
      || SelectCampaign(id, uid) in faults
      || Lookup(campaigns, id, uid).None?
      || GetDetails(Lookup(campaigns, id, uid).value, faults).err.Some?
    }

    /** Campaign `id` with its details, if user `uid` owns it; otherwise the record is not found. */
    method GetStaticCampaign(id: int, uid: int, faults: set<Stmt>) returns (c: StaticCampaign, err: Option<Error>)
      ensures err.None? ==>
                Lookup(campaigns, id, uid).Some? && c.id == id && c.userId == uid &&
                AsRow(c) == AsRow(Lookup(campaigns, id, uid).value) &&
                c.results == ResultsOf(results, id) && c.events == EventsOf(events, id)
      ensures Lookup(campaigns, id, uid).None? ==> err.Some? && c == ZeroCampaign
      ensures err == Some(RecordNotFound) <==> SelectCampaign(id, uid) !in faults && Lookup(campaigns, id, uid).None?
      ensures Lookup(campaigns, id, uid).Some? && SelectCampaign(id, uid) !in faults ==>
                c == GetDetails(Lookup(campaigns, id, uid).value, faults).val &&
                err == GetDetails(Lookup(campaigns, id, uid).value, faults).err
      ensures err.Some? <==> FetchFails(id, uid, faults)
    {
      if SelectCampaign(id, uid) in faults {
        return ZeroCampaign, Some(StoreFailure(SelectCampaign(id, uid)));
      }
      var found := Lookup(campaigns, id, uid);
      if found.None? {
        return ZeroCampaign, Some(RecordNotFound);
      }
      var d := GetDetails(found.value, faults);
      c, err := d.val, d.err;
    }

    /** The reduced view of campaign `id` if user `uid` owns it: identity, status, the user's
        results and the events. */
    method GetStaticCampaignResults(id: int, uid: int, faults: set<Stmt>) returns (cr: CampaignResults, err: Option<Error>)
      ensures err.None? ==>
                Lookup(campaigns, id, uid).Some? && cr.id == id &&
                cr.name == Lookup(campaigns, id, uid).value.name &&
                cr.status == Lookup(campaigns, id, uid).value.status &&
                cr.results == OwnedResultsOf(results, id, uid) && cr.events == EventsOf(events, id)
      ensures Lookup(campaigns, id, uid).None? ==> err.Some? && cr == ZeroCampaignResults
      ensures err == Some(RecordNotFound) <==> SelectCampaign(id, uid) !in faults && Lookup(campaigns, id, uid).None?
      ensures SelectCampaign(id, uid) in faults ==> err == Some(StoreFailure(SelectCampaign(id, uid)))
      ensures Lookup(campaigns, id, uid).Some? && SelectCampaign(id, uid) !in faults ==>
                (err.Some? <==> SelectOwnedResults(id, uid) in faults || SelectEvents(id) in faults)
    {
      if SelectCampaign(id, uid) in faults {
        return ZeroCampaignResults, Some(StoreFailure(SelectCampaign(id, uid)));
      }
      var found := Lookup(campaigns, id, uid);
      if found.None? {
        return ZeroCampaignResults, Some(RecordNotFound);
      }
      cr := CampaignResults(found.value.id, found.value.name, found.value.status, [], []);
      if SelectOwnedResults(cr.id, uid) in faults {
        return cr, Some(StoreFailure(SelectOwnedResults(cr.id, uid)));
      }
      cr := cr.(results := OwnedResultsOf(results, cr.id, uid));
      if SelectEvents(cr.id) in faults {
        return cr, Some(StoreFailure(SelectEvents(cr.id)));
      }
      cr := cr.(events := EventsOf(events, cr.id));
      err := None;
    }

    /** Sets the status of campaign `id`, whoever owns it. */
    method UpdateStatus(id: int, s: CampaignStatus, faults: set<Stmt>) returns (err: Option<Error>)
      requires Valid()
      modifies this
      ensures Valid()
      ensures err.Some? <==> UpdateCampaignStatus(id) in faults
      ensures campaigns == if err.Some? then old(campaigns) else SetStatusWhere(old(campaigns), id, s)
      ensures results == old(results) && events == old(events) && mailLogs == old(mailLogs) && pages == old(pages)
      ensures nextCampaignId == old(nextCampaignId) && nextEventId == old(nextEventId)
    {
      if UpdateCampaignStatus(id) in faults {
        return Some(StoreFailure(UpdateCampaignStatus(id)));
      }
      SetStatusKeepsRows(campaigns, id, s);
      campaigns := SetStatusWhere(campaigns, id, s);
      err := None;
    }

    /** Stores event `e` for campaign `c`, stamped with the campaign's id and the time `now`. */
    method AddEvent(c: StaticCampaign, e: Event, now: Time, faults: set<Stmt>) returns (saved: Event, err: Option<Error>)
      requires Valid()
      modifies this
      ensures Valid()
      ensures saved.campaignId == c.id && saved.time == now
      ensures saved.email == e.email && saved.message == e.message
      ensures err.Some? <==> InsertEvent(c.id) in faults
      ensures err.Some? ==> saved.id == e.id && events == old(events) && nextEventId == old(nextEventId)
      ensures err.None? ==> saved.id == old(nextEventId) && events == old(events) + [saved] &&
                            nextEventId == old(nextEventId) + 1
      ensures campaigns == old(campaigns) && results == old(results) && mailLogs == old(mailLogs) && pages == old(pages)
      ensures nextCampaignId == old(nextCampaignId)
    {
      saved := e.(campaignId := c.id, time := now);
      if InsertEvent(c.id) in faults {
        return saved, Some(StoreFailure(InsertEvent(c.id)));
      }
      saved := saved.(id := nextEventId);
      events := events + [saved];
      nextEventId := nextEventId + 1;
      err := None;
    }

    /** Whether posting `c` as user `uid` reaches the insert: it validates, its page is found
        and the insert succeeds. */
    predicate PostInserts(c: StaticCampaign, uid: int, faults: set<Stmt>)
      reads this
    {
      Validate(c).None? && PageByName(c.page.name, uid, faults).err.None? && InsertCampaign !in faults
    }

    /** The campaign a post of `c` as user `uid` stores once it reaches the insert: stamped, on
        the page found by name, under the next key. */
    function Posted(c: StaticCampaign, uid: int, now: Time, faults: set<Stmt>): StaticCampaign
      reads this
    {
      Stamp(c, uid, now).(id := nextCampaignId,
                          page := PageByName(c.page.name, uid, faults).val,
                          pageId := PageByName(c.page.name, uid, faults).val.id)
    }

    /** The error a post of `c` as user `uid` reports: the first failing check or statement,
        where a missing page is `PageNotFound`; a failing event insert is not among them. */
    function PostError(c: StaticCampaign, uid: int, faults: set<Stmt>): Option<Error>
      reads this
    {
      if Validate(c).Some? then Validate(c)
      else if PageByName(c.page.name, uid, faults).err == Some(RecordNotFound) then Some(PageNotFound)
      else if PageByName(c.page.name, uid, faults).err.Some? then PageByName(c.page.name, uid, faults).err
      else if InsertCampaign in faults then Some(StoreFailure(InsertCampaign))
      else if SaveCampaign(nextCampaignId) in faults then Some(StoreFailure(SaveCampaign(nextCampaignId)))
      else None
    }

    /** Validates, stamps and stores a new campaign of user `uid` on the page it names, and records
        a "Campaign Created" event. A failing event insert is only logged; a failing final save
        is reported although the campaign row is already stored. */
    method PostStaticCampaign(c: StaticCampaign, uid: int, now: Time, faults: set<Stmt>)
      returns (posted: StaticCampaign, err: Option<Error>)
      requires Valid()
      modifies this
      ensures Valid()
      ensures results == old(results) && mailLogs == old(mailLogs) && pages == old(pages)
      // Failures before the insert leave every table as it was.
      ensures Validate(c).Some? ==> err == Validate(c) && posted == c
      ensures Validate(c).None? && old(PageByName(c.page.name, uid, faults)).err == Some(RecordNotFound) ==>
                err == Some(PageNotFound)
      ensures Validate(c).None? && old(PageByName(c.page.name, uid, faults)).err.Some? &&
              old(PageByName(c.page.name, uid, faults)).err != Some(RecordNotFound) ==>
                err == old(PageByName(c.page.name, uid, faults)).err
      ensures Validate(c).None? && old(PageByName(c.page.name, uid, faults)).err.None? && InsertCampaign in faults ==>
                err == Some(StoreFailure(InsertCampaign))
      ensures campaigns == old(campaigns) ==> unchanged(this) && err.Some?
      ensures !old(PostInserts(c, uid, faults)) ==> unchanged(this)
      ensures old(PostInserts(c, uid, faults)) <==> campaigns != old(campaigns)
      ensures err == old(PostError(c, uid, faults))
      ensures old(PostInserts(c, uid, faults)) ==>
                posted == old(Posted(c, uid, now, faults)) &&
                campaigns == old(campaigns) + [AsRow(posted)] &&
                nextCampaignId == old(nextCampaignId) + 1 &&
                nextEventId == old(nextEventId) + (if InsertEvent(posted.id) in faults then 0 else 1)
      // Once validated, the campaign is stamped; it always starts in progress, launched at creation.
      ensures Validate(c).None? ==>
                posted == Stamp(c, uid, now).(id := posted.id, page := posted.page, pageId := posted.pageId) &&
                posted.status == InProgress && posted.launchDate == posted.createdDate == now
      // Otherwise it is stored under a fresh key with the page found by name, and an event is recorded.
      ensures campaigns != old(campaigns) ==>
                Validate(c).None? &&
                posted.id == old(nextCampaignId) &&
                posted.page == old(PageByName(c.page.name, uid, faults)).val && posted.pageId == posted.page.id &&
                campaigns == old(campaigns) + [AsRow(posted)] &&
                Lookup(campaigns, posted.id, uid) == Some(AsRow(posted)) &&
                events == old(events) +
                  (if InsertEvent(posted.id) in faults then []
                   else [Event(old(nextEventId), posted.id, "", now, "Campaign Created")]) &&
                err == (if SaveCampaign(posted.id) in faults then Some(StoreFailure(SaveCampaign(posted.id))) else None)
      ensures err.None? ==> campaigns != old(campaigns)
    {
      posted, err := c, Validate(c);
      if err.Some? {
        return;
      }
      posted := Stamp(c, uid, now);
      var p := PageByName(c.page.name, uid, faults);
      if p.err == Some(RecordNotFound) {
        return posted, Some(PageNotFound);
      } else if p.err.Some? {
        return posted, p.err;
      }
      posted := posted.(page := p.val, pageId := p.val.id);
      posted, err := Insert(posted, now, faults);
    }

    /** Inserts a stamped campaign under a fresh key, records its "Campaign Created" event
        (a failure there is only logged) and saves it once more. */
    method Insert(c: StaticCampaign, now: Time, faults: set<Stmt>) returns (posted: StaticCampaign, err: Option<Error>)
      requires Valid()
      modifies this
      ensures Valid()
      ensures results == old(results) && mailLogs == old(mailLogs) && pages == old(pages)
      ensures InsertCampaign in faults ==>
                unchanged(this) && posted == c && err == Some(StoreFailure(InsertCampaign))
      ensures InsertCampaign !in faults ==>
                posted == c.(id := old(nextCampaignId)) &&
                campaigns == old(campaigns) + [AsRow(posted)] &&
                Lookup(campaigns, posted.id, c.userId) == Some(AsRow(posted)) &&
                events == old(events) +
                  (if InsertEvent(posted.id) in faults then []
                   else [Event(old(nextEventId), posted.id, "", now, "Campaign Created")]) &&
                err == (if SaveCampaign(posted.id) in faults then Some(StoreFailure(SaveCampaign(posted.id))) else None)
      ensures InsertCampaign !in faults ==>
                nextCampaignId == old(nextCampaignId) + 1 &&
                nextEventId == old(nextEventId) + (if InsertEvent(posted.id) in faults then 0 else 1)
    {
      if InsertCampaign in faults {
        return c, Some(StoreFailure(InsertCampaign));
      }
      posted := c.(id := nextCampaignId);
      LookupAppended(campaigns, AsRow(posted));
      campaigns := campaigns + [AsRow(posted)];
      nextCampaignId := nextCampaignId + 1;
      var _, _ := AddEvent(posted, Event(0, 0, "", ZeroTime, "Campaign Created"), now, faults);
      err := if SaveCampaign(posted.id) in faults then Some(StoreFailure(SaveCampaign(posted.id))) else None;
    }

    /** Deletes campaign `id`'s results, events and mail logs, then the campaign row, each as its
        own statement; the first failing statement stops the cascade and nothing is rolled back. */
    method DeleteStaticCampaign(id: int, faults: set<Stmt>) returns (err: Option<Error>)
      requires Valid()
      modifies this
      ensures Valid()
      ensures pages == old(pages) && nextCampaignId == old(nextCampaignId) && nextEventId == old(nextEventId)
      ensures results == if StepsDone(DeleteSteps(id), faults) >= 1 then PurgeResults(old(results), id) else old(results)
      ensures events == if StepsDone(DeleteSteps(id), faults) >= 2 then PurgeEvents(old(events), id) else old(events)
      ensures mailLogs == if StepsDone(DeleteSteps(id), faults) >= 3 then PurgeMailLogs(old(mailLogs), id) else old(mailLogs)
      ensures campaigns == if StepsDone(DeleteSteps(id), faults) < 4 then old(campaigns)
                           else if id == 0 then [] else PurgeCampaigns(old(campaigns), id)
      ensures err == DeleteError(id, faults)
    {
      DeleteStepsDone(id, faults);
      if DeleteResults(id) in faults {
        return Some(StoreFailure(DeleteResults(id)));
      }
      results := PurgeResults(results, id);
      if DeleteEvents(id) in faults {
        return Some(StoreFailure(DeleteEvents(id)));
      }
      events := PurgeEvents(events, id);
      if DeleteMailLogs(id) in faults {
        return Some(StoreFailure(DeleteMailLogs(id)));
      }
      mailLogs := PurgeMailLogs(mailLogs, id);
      if DeleteCampaign(id) in faults {
        return Some(StoreFailure(DeleteCampaign(id)));
      }
      if id == 0 {
        campaigns := [];
      } else {
        PurgeCampaignsDistinct(campaigns, id);
        campaigns := PurgeCampaigns(campaigns, id);
      }
      err := None;
    }

    /** Marks campaign `id` of user `uid` complete at `now`, unless it already is. */
    method CompleteStaticCampaign(id: int, uid: int, now: Time, faults: set<Stmt>) returns (err: Option<Error>)
      requires Valid()
      modifies this
      ensures Valid()
      ensures results == old(results) && events == old(events) && mailLogs == old(mailLogs) && pages == old(pages)
      ensures nextCampaignId == old(nextCampaignId) && nextEventId == old(nextEventId)
      ensures err.None? ==> campaigns == CompleteWhere(old(campaigns), id, uid, now)
      ensures err.Some? ==> campaigns == old(campaigns)
      ensures err == CompleteError(old(campaigns), id, uid, faults)
      ensures Lookup(old(campaigns), id, uid).Some? && Lookup(old(campaigns), id, uid).value.status == Complete ==>
                campaigns == old(campaigns)
      ensures campaigns == old(campaigns) ==> unchanged(this)
    {
      if SelectCampaign(id, uid) in faults {
        return Some(StoreFailure(SelectCampaign(id, uid)));
      }
      var k := FirstIndex(campaigns, (c: StaticCampaign) => c.id == id && c.userId == uid);
      if k.None? {
        return Some(RecordNotFound);
      }
      var i := k.value;
      var c := campaigns[i];
      OnlyMatch(campaigns, id, uid, i, now);
      if c.status == Complete {
        return None;
      }
      if SaveCampaign(id) in faults {
        return Some(StoreFailure(SaveCampaign(id)));
      }
      campaigns := campaigns[i := MarkComplete(c, now)];
      err := None;
    }
  }

  /** A row appended under a key no other row has is what the owner-scoped fetch finds. */
  lemma LookupAppended(cs: seq<StaticCampaign>, x: StaticCampaign)
    requires forall c :: c in cs ==> c.id != x.id
    ensures Lookup(cs + [x], x.id, x.userId) == Some(x)
  {
  }

  /** Campaigns loaded from stored rows keep their columns: each is its row with details, and
      every row is among them. */
  lemma {:induction false} LoadedRows(rows: seq<StaticCampaign>, cs: seq<StaticCampaign>)
    requires |cs| == |rows|
    requires forall c :: c in rows ==> IsRow(c)
    requires forall i :: 0 <= i < |rows| ==> AsRow(cs[i]) == AsRow(rows[i])
    ensures forall i :: 0 <= i < |rows| ==> AsRow(cs[i]) == rows[i]
    ensures forall c :: c in cs ==> AsRow(c) in rows
    ensures forall c :: c in rows ==> exists i :: 0 <= i < |cs| && AsRow(cs[i]) == c
  {
    forall i | 0 <= i < |rows| ensures AsRow(cs[i]) == rows[i] {
      assert rows[i] in rows;
    }
    forall c | c in rows ensures exists i :: 0 <= i < |cs| && AsRow(cs[i]) == c {
      var i :| 0 <= i < |rows| && rows[i] == c;
      assert AsRow(cs[i]) == c;
    }
  }

  /** A status update keeps the table's rows in column form, with their keys. */
  lemma SetStatusKeepsRows(cs: seq<StaticCampaign>, id: int, st: CampaignStatus)
    ensures |SetStatusWhere(cs, id, st)| == |cs|
    ensures forall i :: 0 <= i < |cs| ==> SetStatusWhere(cs, id, st)[i].id == cs[i].id
    ensures forall i :: 0 <= i < |cs| ==> IsRow(cs[i]) ==> IsRow(SetStatusWhere(cs, id, st)[i])
    ensures DistinctKeys(cs, CampaignKey) ==> DistinctKeys(SetStatusWhere(cs, id, st), CampaignKey)
  {
  }

  /** The loop over the summaries stops at the first campaign whose first count fails, or, at
      `|cs|`, runs through when there is none. */
  lemma FirstFailingCount(cs: seq<StaticCampaign>, faults: set<Stmt>, i: nat)
    requires i <= |cs|
    requires forall j :: 0 <= j < i ==> CountResults(cs[j].id) !in faults
    requires i < |cs| ==> CountResults(cs[i].id) in faults
    ensures FirstIndex(cs, (c: StaticCampaign) => CountResults(c.id) in faults) ==
              if i == |cs| then None else Some(i)
  {
  }

  /** Removing rows keeps the campaign keys distinct. */
  lemma PurgeCampaignsDistinct(cs: seq<StaticCampaign>, id: int)
    requires DistinctKeys(cs, CampaignKey)
    ensures DistinctKeys(PurgeCampaigns(cs, id), CampaignKey)
  {
    FilterDistinct(cs, (c: StaticCampaign) => c.id != id, CampaignKey);
  }

  /** With distinct keys, the row at `i` is the only one completing can change. */
  lemma OnlyMatch(cs: seq<StaticCampaign>, id: int, uid: int, i: nat, now: Time)
    requires i < |cs| && cs[i].id == id && cs[i].userId == uid
    requires DistinctKeys(cs, CampaignKey)
    ensures CompleteWhere(cs, id, uid, now) == cs[i := MarkComplete(cs[i], now)]
    ensures cs[i].status == Complete ==> CompleteWhere(cs, id, uid, now) == cs
    ensures Lookup(cs, id, uid) == Some(cs[i])
  {
  }
}
