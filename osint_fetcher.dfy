/** The OSINT fetcher: scheduler state (`isRunning`, whether a job is
    scheduled, `lastFetch`, `fetchCount`), the per-source fetch with its data
    selection, the three processors, the upsert into the domain collection
    and the de-duplicated alert creation. The collections are fields holding
    a map and a sequence; the clock reading and the feed payloads are
    parameters. */
module OsintFetcher {
  import opened Wrappers
  import opened DomainModel
  import opened OsintFeeds
  import AlertModel

  /** The configured sources, in the order the cycle visits them. */
  const SOURCE_KEYS: seq<SourceKey> := [PhishTank, AbuseCh, VirusTotal]

  function KeyName(key: SourceKey): string {
    match key
    case PhishTank => "phishtank"
    case AbuseCh => "abusech"
    case VirusTotal => "virustotal"
  }

  function SourceName(key: SourceKey): string {
    match key
    case PhishTank => "PhishTank"
    case AbuseCh => "Abuse.ch"
    case VirusTotal => "VirusTotal"
  }

  /** PhishTank and VirusTotal are enabled by the presence of their API keys;
      Abuse.ch always is. */
  function SourceEnabled(key: SourceKey, phishTankKey: bool, virusTotalKey: bool): bool {
    match key
    case PhishTank => phishTankKey
    case AbuseCh => true
    case VirusTotal => virusTotalKey
  }

  /** What one source could deliver: the live response body, or None when
      the request fails, and the parsed fallback file (an empty array when
      the file is missing or does not parse). */
  datatype SourceFeed = SourceFeed(live: Option<Payload>, fallback: Payload)

  datatype Feeds = Feeds(phishTank: SourceFeed, abuseCh: SourceFeed, virusTotal: SourceFeed)

  function FeedFor(feeds: Feeds, key: SourceKey): SourceFeed {
    match key
    case PhishTank => feeds.phishTank
    case AbuseCh => feeds.abuseCh
    case VirusTotal => feeds.virusTotal
  }

  /** An enabled source is fetched live and falls back to its file when the
      request fails; a disabled one uses the file. */
  function SelectedData(enabled: bool, feed: SourceFeed): (data: Payload)
    ensures !enabled ==> data == feed.fallback
    ensures enabled && feed.live.Some? ==> data == feed.live.value
    ensures enabled && feed.live.None? ==> data == feed.fallback
  {
    if enabled then feed.live.GetOr(feed.fallback) else feed.fallback
  }

  /** A source's entry in the cycle's report: its counts or its error. */
  type SourceOutcome = (SourceKey, Result<Counts, string>)

  /** Field-wise sum of two tallies. */
  function AddCounts(a: Counts, b: Counts): Counts {
    Counts(a.fetched + b.fetched, a.alertsCreated + b.alertsCreated, a.domainsAdded + b.domainsAdded)
  }

  /** The cycle totals: `fetched || 0` and so on, summed over the sources
      that did not fail. */
  function SumCounts(outs: seq<SourceOutcome>): (c: Counts)
    ensures (forall i :: 0 <= i < |outs| ==> outs[i].1.Failure?) ==> c == Counts(0, 0, 0)
  {
    if outs == [] then Counts(0, 0, 0)
    else
      var c := SumCounts(outs[..|outs| - 1]);
      match outs[|outs| - 1].1
      case Failure(_) => c
      case Success(s) => AddCounts(c, s)
  }

  /** The error every source fails with: the processing step re-assigns a
      constant, which throws before anything is returned. */
  function FetchError(key: SourceKey): string {
    "Failed to fetch from " + SourceName(key) + ": Assignment to constant variable."
  }

  /** The report entries of a cycle over `keys`: each source paired with
      its error. */
  function Outcomes(keys: seq<SourceKey>): (outs: seq<SourceOutcome>)
    ensures |outs| == |keys|
    decreases |keys|
  {
    if keys == [] then []
    else Outcomes(keys[..|keys| - 1]) + [(keys[|keys| - 1], Failure(FetchError(keys[|keys| - 1])))]
  }

  /** Those entries name the sources in order, each with its error. */
  lemma {:induction false} OutcomesFail(keys: seq<SourceKey>)
    ensures forall i :: 0 <= i < |keys| ==> Outcomes(keys)[i] == (keys[i], Failure(FetchError(keys[i])))
    decreases |keys|
  {
    if keys != [] {
      var front := keys[..|keys| - 1];
      OutcomesFail(front);
      var o := Outcomes(keys);
      assert o == Outcomes(front) + [(keys[|keys| - 1], Failure(FetchError(keys[|keys| - 1])))];
      forall i | 0 <= i < |keys| ensures o[i] == (keys[i], Failure(FetchError(keys[i]))) {
        if i < |keys| - 1 {
          assert o[i] == Outcomes(front)[i] && front[i] == keys[i];
        }
      }
    }
  }

  /** A cycle in which every source fails adds up to nothing. */
  lemma OutcomesSumToZero(keys: seq<SourceKey>)
    ensures SumCounts(Outcomes(keys)) == Counts(0, 0, 0)
  {
    OutcomesFail(keys);
    assert forall i :: 0 <= i < |keys| ==> Outcomes(keys)[i].1.Failure?;
  }

  /** Adding one source's entry to the report: the totals grow by its
      counts when it succeeded, and a failed source extends `Outcomes`. */
  lemma RecordStep(keys: seq<SourceKey>, i: nat, outs: seq<SourceOutcome>, r: Result<Counts, string>)
    requires i < |keys|
    ensures SumCounts(outs + [(keys[i], r)])
      == (if r.Success? then AddCounts(SumCounts(outs), r.value) else SumCounts(outs))
    ensures outs == Outcomes(keys[..i]) && r == Failure(FetchError(keys[i])) ==>
      outs + [(keys[i], r)] == Outcomes(keys[..i + 1])
  {
    assert (outs + [(keys[i], r)])[..|outs|] == outs;
    assert keys[..i + 1][..i] == keys[..i];
  }

  /** A failing source contributes nothing to the totals, wherever it is. */
  lemma {:induction false} SumCountsSkipsFailures(outs: seq<SourceOutcome>, o: SourceOutcome, rest: seq<SourceOutcome>)
    requires o.1.Failure?
    requires forall i :: 0 <= i < |rest| ==> rest[i].1.Failure?
    ensures SumCounts(outs + [o] + rest) == SumCounts(outs)
    decreases |rest|
  {
    if rest == [] {
      assert outs + [o] + rest == outs + [o];
      assert (outs + [o])[..|outs|] == outs;
    } else {
      var all := outs + [o] + rest;
      var front := rest[..|rest| - 1];
      assert all[..|all| - 1] == outs + [o] + front;
      SumCountsSkipsFailures(outs, o, front);
    }
  }

  /** The collections after the sources `keys` have run, in order. */
  function CycleDb(db: Db, keys: seq<SourceKey>, phishTankKey: bool, virusTotalKey: bool,
                   feeds: Feeds, now: int): Db
    decreases |keys|
  {
    if keys == [] then db
    else
      var key := keys[|keys| - 1];
      var before := CycleDb(db, keys[..|keys| - 1], phishTankKey, virusTotalKey, feeds, now);
      Process(before, Actions(key, SelectedData(SourceEnabled(key, phishTankKey, virusTotalKey), FeedFor(feeds, key))), now).db
  }

  /** One more source extends the cycle by that source's processing. */
  lemma CycleStep(db: Db, keys: seq<SourceKey>, i: nat, pt: bool, vt: bool, feeds: Feeds, now: int)
    requires i < |keys|
    ensures CycleDb(db, keys[..i + 1], pt, vt, feeds, now)
      == Process(CycleDb(db, keys[..i], pt, vt, feeds, now),
                 Actions(keys[i], SelectedData(SourceEnabled(keys[i], pt, vt), FeedFor(feeds, keys[i]))), now).db
  {
    assert keys[..i + 1][..i] == keys[..i];
  }

  /** A cycle leaves the alert collection as it was and removes no domain. */
  lemma {:induction false} CycleKeepsStores(db: Db, keys: seq<SourceKey>, pt: bool, vt: bool, feeds: Feeds, now: int)
    ensures CycleDb(db, keys, pt, vt, feeds, now).alerts == db.alerts
    ensures db.domains.Keys <= CycleDb(db, keys, pt, vt, feeds, now).domains.Keys
    decreases |keys|
  {
    if keys != [] {
      var key := keys[|keys| - 1];
      var before := CycleDb(db, keys[..|keys| - 1], pt, vt, feeds, now);
      CycleKeepsStores(db, keys[..|keys| - 1], pt, vt, feeds, now);
      FoldCounts(Progress(Counts(0, 0, 0), before),
                 Actions(key, SelectedData(SourceEnabled(key, pt, vt), FeedFor(feeds, key))), now);
    }
  }

  datatype FetchReport = FetchReport(totals: Counts, sources: seq<SourceOutcome>)

  datatype SourceInfo = SourceInfo(key: string, name: string, enabled: bool)

  datatype FetcherStatus = FetcherStatus(isRunning: bool, lastFetch: Option<int>, fetchCount: nat,
                                         sources: seq<SourceInfo>)

  class Fetcher {
    var isRunning: bool
    /** Whether a scheduled job is held (`cronJob` is set). */
    var hasJob: bool
    var lastFetch: Option<int>
    var fetchCount: nat
    const phishTankEnabled: bool
    const virusTotalEnabled: bool
    var domains: map<string, DomainDoc>
    var alerts: seq<AlertModel.AlertDoc>

    function Store(): Db
      reads this
    {
      Db(domains, alerts)
    }

    function Schedule(): (bool, bool, Option<int>, nat)
      reads this
    {
      (isRunning, hasJob, lastFetch, fetchCount)
    }

    function Enabled(key: SourceKey): bool {
      SourceEnabled(key, phishTankEnabled, virusTotalEnabled)
    }

    /** The fetcher as built, over the given collections: stopped, never
        fetched, sources enabled by the presence of their API keys. */
    constructor (phishTankKey: bool, virusTotalKey: bool,
                 domains: map<string, DomainDoc>, alerts: seq<AlertModel.AlertDoc>)
      ensures Schedule() == (false, false, None, 0)
      ensures phishTankEnabled == phishTankKey && virusTotalEnabled == virusTotalKey
      ensures Store() == Db(domains, alerts)
    {
      isRunning, hasJob, lastFetch, fetchCount := false, false, None, 0;
      phishTankEnabled, virusTotalEnabled := phishTankKey, virusTotalKey;
      this.domains, this.alerts := domains, alerts;
    }

    /** `start`: does nothing when already running; otherwise schedules the
        job and is running. */
    method Start()
      modifies this
      ensures old(isRunning) ==> Schedule() == old(Schedule())
      ensures !old(isRunning) ==> isRunning && hasJob
      ensures lastFetch == old(lastFetch) && fetchCount == old(fetchCount)
      ensures Store() == old(Store())
    {
      if isRunning {
        return;
      }
      hasJob := true;
      isRunning := true;
    }

    /** `stop`: whatever the state, the job is dropped and the fetcher is
        not running, so stopping twice is stopping once. */
    method Stop()
      modifies this
      ensures !isRunning && !hasJob
      ensures lastFetch == old(lastFetch) && fetchCount == old(fetchCount)
      ensures Store() == old(Store())
    {
      if hasJob {
        hasJob := false;
      }
      isRunning := false;
    }

    /** `getStatus`. */
    function GetStatus(): (s: FetcherStatus)
      reads this
      ensures s.isRunning == isRunning && s.lastFetch == lastFetch && s.fetchCount == fetchCount
      ensures |s.sources| == |SOURCE_KEYS|
      ensures forall i :: 0 <= i < |SOURCE_KEYS| ==>
        s.sources[i] == SourceInfo(KeyName(SOURCE_KEYS[i]), SourceName(SOURCE_KEYS[i]), Enabled(SOURCE_KEYS[i]))
    {
      FetcherStatus(isRunning, lastFetch, fetchCount,
        [SourceInfo("phishtank", "PhishTank", phishTankEnabled),
         SourceInfo("abusech", "Abuse.ch", true),
         SourceInfo("virustotal", "VirusTotal", virusTotalEnabled)])
    }

    /** `addSuspiciousDomain(domain, category, indicators)`. */
    method AddSuspiciousDomain(name: string, category: Category, inds: seq<Indicator>, now: int)
      returns (u: UpsertOutcome)
      modifies this
      ensures (u, domains) == Upsert(old(domains), name, category, inds, now)
      ensures alerts == old(alerts) && Schedule() == old(Schedule())
    {
      var key := DomainSetter(name);
      var doc := BuildUpserted(domains, name, category, inds, now);
      if Violations(doc) != [] {
        return UpsertFailed;
      }
      u := if key in domains then Updated else Added;
      domains := domains[key := doc];
    }

    /** The document the upsert saves: the stored one touched and extended,
        or a new osint document; rescored either way. */
    method BuildUpserted(ds: map<string, DomainDoc>, name: string, category: Category,
                         inds: seq<Indicator>, now: int) returns (doc: DomainDoc)
      ensures doc == UpsertedDoc(ds, name, category, inds, now)
    {
      var key := DomainSetter(name);
      var sd: SuspiciousDomain;
      if key in ds {
        sd := new SuspiciousDomain.FromDoc(ds[key]);
        sd.lastSeen := now;
        sd.indicators := sd.indicators + inds;
      } else {
        sd := new SuspiciousDomain(name, category, Osint, inds, now);
      }
      var firstSave := sd.UpdateRiskScore(now);
      doc := sd.Doc();
    }

    /** `createAlert(alertData)`. */
    method CreateAlert(input: AlertModel.AlertInput, now: int) returns (o: AlertOutcome)
      modifies this
      ensures o == AlertAttempt(old(alerts), input, now)
      ensures alerts == AfterAlert(old(alerts), input, now)
      ensures domains == old(domains) && Schedule() == old(Schedule())
    {
      if SimilarRecent(alerts, input, now) {
        return Duplicate;
      }
      var alert := new AlertModel.Alert.FromDoc(SystemAlert(input, now));
      var errors := AlertModel.Violations(alert.Doc());
      // `createdBy` is required and a system alert has none, so the save
      // always fails and nothing is appended
      SystemAlertsNeverSave(alerts, input, now);
      return SaveFailed(errors);
    }

    /** The body of a processor loop for one item. */
    method Apply(counts: Counts, a: Option<ItemAction>, now: int) returns (c: Counts)
      modifies this
      ensures Progress(c, Store()) == Step(Progress(counts, old(Store())), a, now)
      ensures Schedule() == old(Schedule())
    {
      c := counts;
      if a.Some? {
        var act := a.value;
        ghost var up := Upsert(domains, act.name, act.category, [act.indicator], now);
        ghost var al := AlertStep(alerts, act.alert, now);
        var u := AddSuspiciousDomain(act.name, act.category, [act.indicator], now);
        var created := false;
        if act.alert.Some? {
          var o := CreateAlert(act.alert.value, now);
          created := o == Created;
        }
        assert created == al.0;
        c := Tally(counts, u == Added, created);
        assert domains == up.1 && alerts == al.1;
      }
    }

    /** `processPhishTankData`. */
    method ProcessPhishTank(data: Payload, now: int) returns (c: Counts)
      modifies this
      ensures Progress(c, Store()) == Process(old(Store()), Actions(PhishTank, data), now)
      ensures Schedule() == old(Schedule())
    {
      c := Counts(0, 0, 0);
      if !data.JsonArray? {
        return;
      }
      var t := Take(data.items, 10);
      ghost var acts := Actions(PhishTank, data);
      ghost var db0 := Store();
      for i := 0 to |t|
        invariant Progress(c, Store()) == Fold(Progress(Counts(0, 0, 0), db0), acts[..i], now)
        invariant Schedule() == old(Schedule())
      {
        PhishTankAt(data.items, i);
        FoldSnoc(Progress(Counts(0, 0, 0), db0), acts, i, now);
        c := Apply(c, PhishTankAction(t[i]), now);
      }
      assert acts[..|t|] == acts;
    }

    /** `processAbuseChData`. */
    method ProcessAbuseCh(data: Payload, now: int) returns (c: Counts)
      modifies this
      ensures Progress(c, Store()) == Process(old(Store()), Actions(AbuseCh, data), now)
      ensures Schedule() == old(Schedule())
    {
      c := Counts(0, 0, 0);
      if !data.Text? {
        return;
      }
      var lines := Take(AbuseLines(data.text), 10);
      ghost var acts := Actions(AbuseCh, data);
      ghost var db0 := Store();
      for i := 0 to |lines|
        invariant Progress(c, Store()) == Fold(Progress(Counts(0, 0, 0), db0), acts[..i], now)
        invariant Schedule() == old(Schedule())
      {
        AbuseChAt(data.text, i);
        FoldSnoc(Progress(Counts(0, 0, 0), db0), acts, i, now);
        c := Apply(c, AbuseChAction(lines[i]), now);
      }
      assert acts[..|lines|] == acts;
    }

    /** `processVirusTotalData`. */
    method ProcessVirusTotal(data: Payload, now: int) returns (c: Counts)
      modifies this
      ensures Progress(c, Store()) == Process(old(Store()), Actions(VirusTotal, data), now)
      ensures Schedule() == old(Schedule())
    {
      c := Counts(0, 0, 0);
      if !data.JsonArray? {
        return;
      }
      var t := Take(data.items, 5);
      ghost var acts := Actions(VirusTotal, data);
      ghost var db0 := Store();
      for i := 0 to |t|
        invariant Progress(c, Store()) == Fold(Progress(Counts(0, 0, 0), db0), acts[..i], now)
        invariant Schedule() == old(Schedule())
      {
        VirusTotalAt(data.items, i);
        FoldSnoc(Progress(Counts(0, 0, 0), db0), acts, i, now);
        c := Apply(c, VirusTotalAction(t[i]), now);
      }
      assert acts[..|t|] == acts;
    }

    /** `fetchFromSource`: picks the data, runs the source's processor, and
        then fails. Its `result` is a constant, so storing the processor's
        counts in it throws after the processor's writes are done, and the
        catch reports that as the source's error. */
    method FetchFromSource(key: SourceKey, feed: SourceFeed, now: int) returns (r: Result<Counts, string>)
      modifies this
      ensures r == Failure(FetchError(key))
      ensures Store() == Process(old(Store()), Actions(key, SelectedData(Enabled(key), feed)), now).db
      ensures Schedule() == old(Schedule())
    {
      var data := SelectedData(Enabled(key), feed);
      var counts: Counts;
      match key {
        case PhishTank => counts := ProcessPhishTank(data, now);
        case AbuseCh => counts := ProcessAbuseCh(data, now);
        case VirusTotal => counts := ProcessVirusTotal(data, now);
      }
      r := Failure(FetchError(key));
    }

    /** One turn of the loop in `fetchOSINTData`: source `i` is fetched on
        top of the sources before it. */
    method FetchNext(ghost db0: Db, i: nat, feeds: Feeds, now: int) returns (r: Result<Counts, string>)
      requires i < |SOURCE_KEYS|
      requires Store() == CycleDb(db0, SOURCE_KEYS[..i], phishTankEnabled, virusTotalEnabled, feeds, now)
      modifies this
      ensures r == Failure(FetchError(SOURCE_KEYS[i]))
      ensures Store() == CycleDb(db0, SOURCE_KEYS[..i + 1], phishTankEnabled, virusTotalEnabled, feeds, now)
      ensures Schedule() == old(Schedule())
    {
      CycleStep(db0, SOURCE_KEYS, i, phishTankEnabled, virusTotalEnabled, feeds, now);
      r := FetchFromSource(SOURCE_KEYS[i], FeedFor(feeds, SOURCE_KEYS[i]), now);
    }

    /** The body of the loop in `fetchOSINTData`: the source's entry is its
        counts or its error, and the totals grow by the counts of a source
        that did not fail. */
    method RunSource(ghost db0: Db, i: nat, outs: seq<SourceOutcome>, totals: Counts, feeds: Feeds, now: int)
      returns (outs': seq<SourceOutcome>, totals': Counts)
      requires i < |SOURCE_KEYS|
      requires outs == Outcomes(SOURCE_KEYS[..i]) && totals == SumCounts(outs)
      requires Store() == CycleDb(db0, SOURCE_KEYS[..i], phishTankEnabled, virusTotalEnabled, feeds, now)
      modifies this
      ensures outs' == Outcomes(SOURCE_KEYS[..i + 1]) && totals' == SumCounts(outs')
      ensures Store() == CycleDb(db0, SOURCE_KEYS[..i + 1], phishTankEnabled, virusTotalEnabled, feeds, now)
      ensures Schedule() == old(Schedule())
    {
      var key := SOURCE_KEYS[i];
      var r := FetchNext(db0, i, feeds, now);
      RecordStep(SOURCE_KEYS, i, outs, r);
      totals' := totals;
      match r {
        case Success(counts) => totals' := AddCounts(totals, counts);
        case Failure(_) =>
      }
      outs' := outs + [(key, r)];
    }

    /** `fetchOSINTData`: every source in turn, each failure recorded
        against its source without stopping the others, the totals over the
        sources that succeeded; then `lastFetch` and `fetchCount`. */
    method FetchOSINTData(feeds: Feeds, now: int) returns (report: FetchReport)
      modifies this
      ensures fetchCount == old(fetchCount) + 1 && lastFetch == Some(now)
      ensures isRunning == old(isRunning) && hasJob == old(hasJob)
      ensures report.sources == Outcomes(SOURCE_KEYS)
      ensures report.totals == SumCounts(report.sources)
      ensures Store() == CycleDb(old(Store()), SOURCE_KEYS, phishTankEnabled, virusTotalEnabled, feeds, now)
    {
      var outs: seq<SourceOutcome> := [];
      var totals := Counts(0, 0, 0);
      ghost var db0 := Store();
      for i := 0 to |SOURCE_KEYS|
        invariant outs == Outcomes(SOURCE_KEYS[..i])
        invariant totals == SumCounts(outs)
        invariant Store() == CycleDb(db0, SOURCE_KEYS[..i], phishTankEnabled, virusTotalEnabled, feeds, now)
        invariant Schedule() == old(Schedule())
      {
        outs, totals := RunSource(db0, i, outs, totals, feeds, now);
      }
      assert SOURCE_KEYS[..|SOURCE_KEYS|] == SOURCE_KEYS;
      lastFetch := Some(now);
      fetchCount := fetchCount + 1;
      report := FetchReport(totals, outs);
    }
  }
}
