/** What the OSINT fetcher does with a feed, as values: the payload shapes,
    `extractDomain`, the per-item decision of each of the three processors
    (which items count, which indicator and which alert they produce), the
    upsert into the domain collection, the 24-hour alert de-duplication, and
    the left-to-right fold of a processor over its items. The fetcher class
    is proved against these. */
module OsintFeeds {
  import opened Wrappers
  import opened JsStrings
  import opened DomainModel
  import opened DomainHeuristics
  import AlertModel

  // ---------------------------------------------------------------- payloads

  /** A feed entry, with the fields the processors read; an absent string
      field is "" (falsy alike) and an absent `detections` is 0 (not above 0
      alike). */
  datatype FeedItem = FeedItem(url: string, verified: string, domain: string, detections: int)

  /** A response body or parsed fallback file: a JSON array, a text body,
      or any other JSON value. */
  datatype Payload = JsonArray(items: seq<FeedItem>) | Text(text: string) | OtherJson

  function Take<T>(s: seq<T>, n: nat): (r: seq<T>)
    ensures |r| <= n && |r| <= |s|
    ensures r == s[..|r|]
    ensures |s| <= n ==> r == s
  {
    if |s| <= n then s else s[..n]
  }

  // ---------------------------------------------------------------- extractDomain

  predicate IsAuthorityEnd(c: char) { c == '/' || c == '?' || c == '#' || c == '\\' }

  /** `[^\/\s]`, negated. */
  predicate IsCaptureStop(c: char) { c == '/' || IsSpace(c) }

  predicate IsPortMark(c: char) { c == ':' }

  /** The longest prefix of `s` with no `stop` character. */
  function Span(s: string, stop: char -> bool): (r: string)
    ensures |r| <= |s| && r == s[..|r|]
    ensures forall i :: 0 <= i < |r| ==> !stop(r[i])
    ensures |r| < |s| ==> stop(s[|r|])
    decreases |s|
  {
    if s == [] || stop(s[0]) then []
    else
      var t := Span(s[1..], stop);
      assert s[..|t| + 1] == [s[0]] + s[1..][..|t|];
      [s[0]] + t
  }

  /** The string handed to the URL parser: `http://` is put in front unless
      it already starts with `http`. */
  function UrlToParse(url: string): string {
    if StartsWith(url, "http") then url else "http://" + url
  }

  /** The host the URL parser finds, lower-cased, in a simplified form of
      its rules: an `http://` or `https://` scheme, then the authority up to
      the first `/`, `?`, `#` or `\`, without user information (up to the
      last `@`) and port (from the first `:`). None where the parser throws:
      another scheme, an empty host, or white space in the host. */
  function ParsedHost(s: string): (h: Option<string>)
    ensures h.Some? ==> h.value != [] && IsLowerCase(h.value)
  {
    var rest := if StartsWith(s, "https://") then Some(s[8..])
                else if StartsWith(s, "http://") then Some(s[7..])
                else None;
    match rest
    case None => None
    case Some(r) =>
      var authority := Span(r, IsAuthorityEnd);
      var at := LastIndexOf(authority, '@');
      var host := Span(authority[at + 1..], IsPortMark);
      if host == [] || exists i :: 0 <= i < |host| && IsSpace(host[i]) then None
      else Some(ToLower(host))
  }

  /** The first position where `/(?:https?:\/\/)?(?:www\.)?([^\/\s]+)/` can
      match: the first character that is neither `/` nor white space. */
  function FirstMatchPosition(s: string): (p: int)
    ensures -1 <= p < |s|
    ensures p >= 0 ==> !IsCaptureStop(s[p]) && forall i :: 0 <= i < p ==> IsCaptureStop(s[i])
    ensures p == -1 ==> forall i :: 0 <= i < |s| ==> IsCaptureStop(s[i])
  {
    if s == [] then -1
    else if !IsCaptureStop(s[0]) then 0
    else
      var p := FirstMatchPosition(s[1..]);
      if p == -1 then -1 else p + 1
  }

  function SchemeLength(t: string): nat {
    if StartsWith(t, "https://") then 8 else if StartsWith(t, "http://") then 7 else 0
  }

  function WwwTries(t: string, o: nat): (ts: seq<nat>)
    requires o <= |t|
    ensures |ts| >= 1 && ts[|ts| - 1] == o
    ensures forall i :: 0 <= i < |ts| ==> ts[i] <= |t|
  {
    if StartsWith(t[o..], "www.") then [o + 4, o] else [o]
  }

  /** Where the capture group may start, in the order the regex backtracks:
      after scheme and `www.`, after the scheme alone, after `www.` alone, at
      the match position itself. */
  function Tries(t: string): (ts: seq<nat>)
    ensures |ts| >= 1 && ts[|ts| - 1] == 0
    ensures forall i :: 0 <= i < |ts| ==> ts[i] <= |t|
  {
    var sch := SchemeLength(t);
    (if 0 < sch <= |t| then WwwTries(t, sch) else []) + WwwTries(t, 0)
  }

  /** The first of the `tries` from which the capture is not empty. */
  function FirstCaptureOffset(t: string, tries: seq<nat>): (o: Option<nat>)
    requires forall i :: 0 <= i < |tries| ==> tries[i] <= |t|
    ensures o.Some? ==> o.value <= |t| && Span(t[o.value..], IsCaptureStop) != []
    ensures |tries| >= 1 && tries[|tries| - 1] == 0 && t != [] && !IsCaptureStop(t[0]) ==> o.Some?
    decreases |tries|
  {
    if tries == [] then None
    else if Span(t[tries[0]..], IsCaptureStop) != [] then Some(tries[0])
    else FirstCaptureOffset(t, tries[1..])
  }

  /** The capture group of the fallback regex, or None when it does not
      match at all: the capture is a non-empty run without `/` or white
      space, taken from `url`. */
  function RegexCapture(url: string): (c: Option<string>)
    ensures c.None? <==> forall i :: 0 <= i < |url| ==> IsCaptureStop(url[i])
    ensures c.Some? ==> c.value != [] && forall i :: 0 <= i < |c.value| ==> !IsCaptureStop(c.value[i])
    ensures c.Some? ==> exists k :: OccursAt(url, c.value, k)
  {
    var p := FirstMatchPosition(url);
    if p < 0 then None
    else
      var t := url[p..];
      var o := FirstCaptureOffset(t, Tries(t)).value;
      var cap := Span(t[o..], IsCaptureStop);
      assert url[p + o..p + o + |cap|] == t[o..][..|cap|];
      assert OccursAt(url, cap, p + o);
      Some(cap)
  }

  /** `extractDomain(url)`: the parsed host without a leading `www.`, or, when
      parsing throws, the lower-cased regex capture or the lower-cased input.
      It is total and always yields lower case. */
  function ExtractDomain(url: string): (d: string)
    ensures IsLowerCase(d)
  {
    match ParsedHost(UrlToParse(url))
    case Some(h) =>
      var d := StripPrefix(h, "www.");
      assert forall i :: 0 <= i < |d| ==> d[i] == h[|h| - |d| + i];
      d
    case None =>
      match RegexCapture(url)
      case Some(c) => ToLower(c)
      case None => ToLower(url)
  }

  /** A plain host name, given with `http://` and followed by a path, query
      or fragment, comes out as the host without its `www.`. */
  lemma ExtractHost(host: string, tail: string)
    requires host != [] && IsLowerCase(host)
    requires forall i :: 0 <= i < |host| ==>
      !IsAuthorityEnd(host[i]) && host[i] != '@' && host[i] != ':' && !IsSpace(host[i])
    requires tail == [] || IsAuthorityEnd(tail[0])
    ensures ExtractDomain("http://" + host + tail) == StripPrefix(host, "www.")
  {
    var s := "http://" + host + tail;
    assert UrlToParse(s) == s by {
      assert s[..4] == "http";
    }
    ParsedHostOf(host, tail);
  }

  /** The same host given without a scheme gets `http://` put in front and
      comes out alike. */
  lemma ExtractBareHost(host: string, tail: string)
    requires host != [] && IsLowerCase(host) && !StartsWith(host + tail, "http")
    requires forall i :: 0 <= i < |host| ==>
      !IsAuthorityEnd(host[i]) && host[i] != '@' && host[i] != ':' && !IsSpace(host[i])
    requires tail == [] || IsAuthorityEnd(tail[0])
    ensures ExtractDomain(host + tail) == StripPrefix(host, "www.")
  {
    assert UrlToParse(host + tail) == "http://" + host + tail;
    ParsedHostOf(host, tail);
  }

  lemma ParsedHostOf(host: string, tail: string)
    requires host != [] && IsLowerCase(host)
    requires forall i :: 0 <= i < |host| ==>
      !IsAuthorityEnd(host[i]) && host[i] != '@' && host[i] != ':' && !IsSpace(host[i])
    requires tail == [] || IsAuthorityEnd(tail[0])
    ensures ParsedHost("http://" + host + tail) == Some(host)
  {
    var s := "http://" + host + tail;
    assert StartsWith(s, "http://") && !StartsWith(s, "https://") by {
      assert s[..7] == "http://";
      assert s[4] == ':';
    }
    assert s[7..] == host + tail;
    var authority := Span(host + tail, IsAuthorityEnd);
    assert authority == host by {
      SpanStopsAt(host, tail, IsAuthorityEnd);
    }
    assert LastIndexOf(host, '@') == -1;
    assert host[0..] == host;
    assert Span(host, IsPortMark) == host by {
      SpanStopsAt(host, [], IsPortMark);
      assert host + [] == host;
    }
    ToLowerOfLower(host);
  }

  /** `Span` runs to the end of a stop-free `a` and no further when `b` starts with a stop. */
  lemma SpanStopsAt(a: string, b: string, stop: char -> bool)
    requires forall i :: 0 <= i < |a| ==> !stop(a[i])
    requires b == [] || stop(b[0])
    ensures Span(a + b, stop) == a
  {
    var s := a + b;
    assert s[..|a|] == a;
  }

  // ---------------------------------------------------------------- the Abuse.ch text feed

  /** `line.trim() && !line.startsWith('#')`. */
  predicate KeepLine(line: string) {
    Trim(line) != [] && !StartsWith(line, "#")
  }

  /** `lines.filter(...)`: the kept lines, in order. */
  function KeepLines(lines: seq<string>): (r: seq<string>)
    ensures |r| <= |lines|
    ensures forall i :: 0 <= i < |r| ==> KeepLine(r[i])
    ensures forall l :: l in r <==> l in lines && KeepLine(l)
  {
    if lines == [] then []
    else (if KeepLine(lines[0]) then [lines[0]] else []) + KeepLines(lines[1..])
  }

  function AbuseLines(text: string): seq<string> {
    KeepLines(Split(text, '\n'))
  }

  // ---------------------------------------------------------------- per-item decisions

  /** What a processor does with one counted item: upsert `name` with
      `category` and one indicator, and optionally raise an alert. */
  datatype ItemAction = ItemAction(
    name: string,
    category: Category,
    indicator: Indicator,
    alert: Option<AlertModel.AlertInput>)

  function OsintAlert(title: string, description: string, severity: AlertModel.Severity,
                      category: AlertModel.AlertCategory, domain: string): AlertModel.AlertInput
  {
    AlertModel.AlertInput(Some(title), Some(description), Some(severity), Some(category),
                          Some(AlertModel.Osint), Some(domain), None, None, None,
                          None, None, None)
  }

  /** A PhishTank entry counts when its `url` is non-empty and `verified` is
      exactly `yes`: the extracted domain is upserted as phishing with a
      confidence-95 indicator and a high-severity phishing alert is raised. */
  function PhishTankAction(item: FeedItem): (a: Option<ItemAction>)
    ensures a.Some? <==> item.url != [] && item.verified == "yes"
    ensures a.Some? ==>
      a.value.name == ExtractDomain(item.url) && a.value.category == Phishing
      && a.value.indicator == Indicator(SuspiciousContent, "Reported as phishing site by PhishTank", Some(95))
      && a.value.alert.Some? && a.value.alert.value.severity == Some(AlertModel.High)
  {
    if item.url != [] && item.verified == "yes" then
      var domain := ExtractDomain(item.url);
      Some(ItemAction(domain, Phishing,
        Indicator(SuspiciousContent, "Reported as phishing site by PhishTank", Some(95)),
        Some(OsintAlert("Phishing Site Detected: " + domain,
          "Domain " + domain + " has been reported as a phishing site by PhishTank. URL: " + item.url,
          AlertModel.High, AlertModel.Phishing, domain))))
    else None
  }

  /** An Abuse.ch line counts when it has at least two tab-separated columns;
      the URL is the second column, upserted as malware with confidence 90,
      and a high-severity malware alert is raised. */
  function AbuseChAction(line: string): (a: Option<ItemAction>)
    ensures a.Some? <==> |Split(line, '\t')| >= 2
    ensures a.Some? ==>
      a.value.name == ExtractDomain(Split(line, '\t')[1]) && a.value.category == Malware
      && a.value.indicator == Indicator(SuspiciousContent, "Reported as malicious URL by Abuse.ch", Some(90))
      && a.value.alert.Some? && a.value.alert.value.severity == Some(AlertModel.High)
  {
    var parts := Split(line, '\t');
    if |parts| >= 2 then
      var url := parts[1];
      var domain := ExtractDomain(url);
      Some(ItemAction(domain, Malware,
        Indicator(SuspiciousContent, "Reported as malicious URL by Abuse.ch", Some(90)),
        Some(OsintAlert("Malicious URL Detected: " + domain,
          "Domain " + domain + " has been reported as hosting malicious content by Abuse.ch. URL: " + url,
          AlertModel.High, AlertModel.Malware, domain))))
    else None
  }

  /** A VirusTotal entry counts when its `domain` is non-empty; the name is
      upserted as it is (no extraction) as suspicious, with confidence 80
      when there are detections and 30 otherwise; an alert is raised only
      when there are detections, high above 5 and medium otherwise. */
  function VirusTotalAction(item: FeedItem): (a: Option<ItemAction>)
    ensures a.Some? <==> item.domain != []
    ensures a.Some? ==>
      a.value.name == item.domain && a.value.category == Suspicious
      && a.value.indicator.confidence == Some(if item.detections > 0 then 80 else 30)
      && (a.value.alert.Some? <==> item.detections > 0)
    ensures a.Some? && a.value.alert.Some? ==>
      a.value.alert.value.severity == Some(if item.detections > 5 then AlertModel.High else AlertModel.Medium)
  {
    if item.domain != [] then
      var alert := if item.detections > 0 then
        Some(OsintAlert("Suspicious Domain Detected: " + item.domain,
          "Domain " + item.domain + " has been flagged by " + NatToString(item.detections)
            + " security engines on VirusTotal.",
          if item.detections > 5 then AlertModel.High else AlertModel.Medium,
          AlertModel.SuspiciousDomain, item.domain))
        else None;
      Some(ItemAction(item.domain, Suspicious,
        Indicator(SuspiciousContent, "Flagged by VirusTotal analysis", Some(if item.detections > 0 then 80 else 30)),
        alert))
    else None
  }

  datatype SourceKey = PhishTank | AbuseCh | VirusTotal

  /** One PhishTank decision per entry, in order. */
  function PhishTankActions(items: seq<FeedItem>): (acts: seq<Option<ItemAction>>)
    ensures |acts| == |items|
    ensures forall i :: 0 <= i < |items| ==> acts[i] == PhishTankAction(items[i])
  {
    if items == [] then [] else PhishTankActions(items[..|items| - 1]) + [PhishTankAction(items[|items| - 1])]
  }

  /** One Abuse.ch decision per line, in order. */
  function AbuseChActions(lines: seq<string>): (acts: seq<Option<ItemAction>>)
    ensures |acts| == |lines|
    ensures forall i :: 0 <= i < |lines| ==> acts[i] == AbuseChAction(lines[i])
  {
    if lines == [] then [] else AbuseChActions(lines[..|lines| - 1]) + [AbuseChAction(lines[|lines| - 1])]
  }

  /** One VirusTotal decision per entry, in order. */
  function VirusTotalActions(items: seq<FeedItem>): (acts: seq<Option<ItemAction>>)
    ensures |acts| == |items|
    ensures forall i :: 0 <= i < |items| ==> acts[i] == VirusTotalAction(items[i])
  {
    if items == [] then [] else VirusTotalActions(items[..|items| - 1]) + [VirusTotalAction(items[|items| - 1])]
  }

  /** The items a processor looks at, as decisions: the first 10 array
      entries, the first 10 kept lines, the first 5 array entries. A payload
      of the wrong shape gives none. */
  function Actions(key: SourceKey, data: Payload): (acts: seq<Option<ItemAction>>)
    ensures |acts| <= (if key == VirusTotal then 5 else 10)
    ensures key != AbuseCh && !data.JsonArray? ==> acts == []
    ensures key == AbuseCh && !data.Text? ==> acts == []
  {
    match key
    case PhishTank => if data.JsonArray? then PhishTankActions(Take(data.items, 10)) else []
    case AbuseCh => if data.Text? then AbuseChActions(Take(AbuseLines(data.text), 10)) else []
    case VirusTotal => if data.JsonArray? then VirusTotalActions(Take(data.items, 5)) else []
  }

  function CountSome<T>(s: seq<Option<T>>): (n: nat)
    ensures n <= |s|
  {
    if s == [] then 0 else CountSome(s[..|s| - 1]) + (if s[|s| - 1].Some? then 1 else 0)
  }

  // ---------------------------------------------------------------- storage

  datatype Db = Db(domains: map<string, DomainDoc>, alerts: seq<AlertModel.AlertDoc>)

  datatype UpsertOutcome = Added | Updated | UpsertFailed

  /** The document `addSuspiciousDomain` saves for `name`: a stored document
      with `lastSeen` touched and the indicators appended, or a new osint
      document; rescored either way. */
  function UpsertedDoc(domains: map<string, DomainDoc>, name: string, category: Category,
                       inds: seq<Indicator>, now: int): DomainDoc
  {
    var key := DomainSetter(name);
    if key in domains then
      Rescore(domains[key].(lastSeen := now, indicators := domains[key].indicators + inds), now)
    else
      Rescore(NewDomainDoc(name, category, Osint, inds, now), now)
  }

  /** The upsert: `Updated` for a stored name, `Added` for a new one, and
      `UpsertFailed` with nothing written when the save fails validation. */
  function Upsert(domains: map<string, DomainDoc>, name: string, category: Category,
                  inds: seq<Indicator>, now: int): (r: (UpsertOutcome, map<string, DomainDoc>))
    ensures r.0 == Added ==> DomainSetter(name) !in domains
    ensures r.0 == Updated ==> DomainSetter(name) in domains
    ensures r.0 == UpsertFailed <==> !IsValidDoc(UpsertedDoc(domains, name, category, inds, now))
    ensures r.0 == UpsertFailed ==> r.1 == domains
    ensures r.0 != UpsertFailed ==> r.1 == domains[DomainSetter(name) := UpsertedDoc(domains, name, category, inds, now)]
  {
    var key := DomainSetter(name);
    var d := UpsertedDoc(domains, name, category, inds, now);
    if !IsValidDoc(d) then (UpsertFailed, domains)
    else if key in domains then (Updated, domains[key := d])
    else (Added, domains[key := d])
  }

  /** Updating a stored name keeps its earlier indicators, appends the new
      ones after them and touches `lastSeen`; a new name gets source osint
      and exactly the given indicators. Both are consistently scored. */
  lemma UpsertedDocShape(domains: map<string, DomainDoc>, name: string, category: Category,
                         inds: seq<Indicator>, now: int)
    ensures var d := UpsertedDoc(domains, name, category, inds, now);
      var key := DomainSetter(name);
      Consistent(d) && d.domain == (if key in domains then domains[key].domain else key)
      && (key in domains ==>
            d.indicators == domains[key].indicators + inds && d.lastSeen == now
            && d.category == domains[key].category && d.firstSeen == domains[key].firstSeen)
      && (key !in domains ==>
            d.indicators == inds && d.source == Osint && d.category == category
            && d.firstSeen == now && d.lastSeen == now)
  {
  }

  datatype AlertOutcome = Created | Duplicate | SaveFailed(errors: seq<string>)

  /** `Alert.findOne({domain, title, createdAt >= now - 24h})`: the query
      values pass through the paths' setters like stored values do. */
  predicate SimilarRecent(alerts: seq<AlertModel.AlertDoc>, input: AlertModel.AlertInput, now: int) {
    exists i :: 0 <= i < |alerts| && alerts[i].domain == AlertModel.DomainField(input.domain)
      && alerts[i].title == AlertModel.TrimField(input.title)
      && alerts[i].createdAt >= now - AlertModel.DAY_MS
  }

  /** The alert `createAlert` builds: the given fields with `createdBy` null. */
  function SystemAlert(input: AlertModel.AlertInput, now: int): AlertModel.AlertDoc {
    AlertModel.NewAlert(input.(createdBy := None), now)
  }

  /** `createAlert`: suppressed by a similar alert of the last 24 hours,
      otherwise saved if it validates. */
  function AlertAttempt(alerts: seq<AlertModel.AlertDoc>, input: AlertModel.AlertInput, now: int): (o: AlertOutcome)
    ensures o == Duplicate <==> SimilarRecent(alerts, input, now)
  {
    if SimilarRecent(alerts, input, now) then Duplicate
    else
      var errors := AlertModel.Violations(SystemAlert(input, now));
      if errors == [] then Created else SaveFailed(errors)
  }

  /** A system alert never saves: `createdBy` is required and it has none,
      so every attempt is either suppressed or a failed save naming
      `createdBy`. */
  lemma SystemAlertsNeverSave(alerts: seq<AlertModel.AlertDoc>, input: AlertModel.AlertInput, now: int)
    ensures AlertAttempt(alerts, input, now) != Created
    ensures !SimilarRecent(alerts, input, now) ==>
      AlertAttempt(alerts, input, now).SaveFailed? && "createdBy" in AlertAttempt(alerts, input, now).errors
  {
    assert SystemAlert(input, now).createdBy.None?;
  }

  function AfterAlert(alerts: seq<AlertModel.AlertDoc>, input: AlertModel.AlertInput, now: int): seq<AlertModel.AlertDoc> {
    if AlertAttempt(alerts, input, now) == Created then alerts + [SystemAlert(input, now)] else alerts
  }

  // ---------------------------------------------------------------- the processor fold

  datatype Counts = Counts(fetched: nat, alertsCreated: nat, domainsAdded: nat)

  datatype Progress = Progress(counts: Counts, db: Db)

  /** The alert half of an iteration: whether an alert was created, and the
      alert collection after it. */
  function AlertStep(alerts: seq<AlertModel.AlertDoc>, alert: Option<AlertModel.AlertInput>, now: int)
    : (r: (bool, seq<AlertModel.AlertDoc>))
  {
    match alert
    case None => (false, alerts)
    case Some(input) => (AlertAttempt(alerts, input, now) == Created, AfterAlert(alerts, input, now))
  }

  /** The counters after one counted item. */
  function Tally(c: Counts, added: bool, created: bool): Counts {
    Counts(c.fetched + 1, c.alertsCreated + (if created then 1 else 0), c.domainsAdded + (if added then 1 else 0))
  }

  /** One iteration of a processor loop: upsert, then the alert, then the
      counters. */
  function Step(st: Progress, a: Option<ItemAction>, now: int): Progress {
    match a
    case None => st
    case Some(act) =>
      var up := Upsert(st.db.domains, act.name, act.category, [act.indicator], now);
      var al := AlertStep(st.db.alerts, act.alert, now);
      Progress(Tally(st.counts, up.0 == Added, al.0), Db(up.1, al.1))
  }

  /** The processor loop over `acts`, from the left. */
  function Fold(st: Progress, acts: seq<Option<ItemAction>>, now: int): Progress
    decreases |acts|
  {
    if acts == [] then st else Step(Fold(st, acts[..|acts| - 1], now), acts[|acts| - 1], now)
  }

  /** One more decision extends the fold by one step. */
  lemma FoldSnoc(st: Progress, acts: seq<Option<ItemAction>>, i: nat, now: int)
    requires i < |acts|
    ensures Fold(st, acts[..i + 1], now) == Step(Fold(st, acts[..i], now), acts[i], now)
  {
    assert acts[..i + 1][..i] == acts[..i];
  }

  /** What a processor returns and leaves stored, from zero counts. */
  function Process(db: Db, acts: seq<Option<ItemAction>>, now: int): Progress {
    Fold(Progress(Counts(0, 0, 0), db), acts, now)
  }

  /** Across a processor run: one `fetched` per counted item, never more
      domains added than items counted, no alert created (system alerts
      never save) and the alert collection untouched, and no stored domain
      removed. */
  lemma {:induction false} FoldCounts(st: Progress, acts: seq<Option<ItemAction>>, now: int)
    ensures var r := Fold(st, acts, now);
      r.counts.fetched == st.counts.fetched + CountSome(acts)
      && r.counts.domainsAdded - st.counts.domainsAdded <= r.counts.fetched - st.counts.fetched
      && r.counts.alertsCreated == st.counts.alertsCreated
      && r.db.alerts == st.db.alerts
      && st.db.domains.Keys <= r.db.domains.Keys
    decreases |acts|
  {
    if acts != [] {
      var prev := acts[..|acts| - 1];
      FoldCounts(st, prev, now);
      var mid := Fold(st, prev, now);
      var a := acts[|acts| - 1];
      if a.Some? && a.value.alert.Some? {
        SystemAlertsNeverSave(mid.db.alerts, a.value.alert.value, now);
      }
    }
  }

  /** The processor bounds: `domainsAdded` and `alertsCreated` never exceed
      `fetched`, which counts exactly the items that qualify and is at most
      10 (5 for VirusTotal); a payload of the wrong shape changes nothing. */
  lemma ProcessBounds(db: Db, key: SourceKey, data: Payload, now: int)
    ensures var r := Process(db, Actions(key, data), now);
      r.counts.fetched == CountSome(Actions(key, data))
      && r.counts.fetched <= (if key == VirusTotal then 5 else 10)
      && r.counts.domainsAdded <= r.counts.fetched
      && r.counts.alertsCreated == 0 <= r.counts.fetched
      && r.db.alerts == db.alerts
    ensures (key != AbuseCh && !data.JsonArray?) || (key == AbuseCh && !data.Text?) ==>
      Process(db, Actions(key, data), now) == Progress(Counts(0, 0, 0), db)
  {
    FoldCounts(Progress(Counts(0, 0, 0), db), Actions(key, data), now);
  }

  /** The PhishTank decisions look at the first 10 entries only, one decision
      per entry, and the `i`-th counts exactly when that entry has a URL and
      is verified. */
  lemma PhishTankItems(items: seq<FeedItem>, i: int)
    requires 0 <= i < |Actions(PhishTank, JsonArray(items))|
    ensures i < 10 && i < |items|
    ensures Actions(PhishTank, JsonArray(items))[i].Some? <==> items[i].url != [] && items[i].verified == "yes"
  {
  }

  /** Each source's decisions are those of its items, one per item. */
  lemma PhishTankAt(items: seq<FeedItem>, i: nat)
    requires i < |Take(items, 10)|
    ensures |Actions(PhishTank, JsonArray(items))| == |Take(items, 10)|
    ensures Actions(PhishTank, JsonArray(items))[i] == PhishTankAction(Take(items, 10)[i])
  {
  }

  lemma AbuseChAt(text: string, i: nat)
    requires i < |Take(AbuseLines(text), 10)|
    ensures |Actions(AbuseCh, Text(text))| == |Take(AbuseLines(text), 10)|
    ensures Actions(AbuseCh, Text(text))[i] == AbuseChAction(Take(AbuseLines(text), 10)[i])
  {
  }

  lemma VirusTotalAt(items: seq<FeedItem>, i: nat)
    requires i < |Take(items, 5)|
    ensures |Actions(VirusTotal, JsonArray(items))| == |Take(items, 5)|
    ensures Actions(VirusTotal, JsonArray(items))[i] == VirusTotalAction(Take(items, 5)[i])
  {
  }

  /** The Abuse.ch decisions are over the first 10 kept lines, one per line. */
  lemma AbuseChLines(text: string, i: int)
    requires 0 <= i < |Actions(AbuseCh, Text(text))|
    ensures i < 10 && i < |AbuseLines(text)| && KeepLine(AbuseLines(text)[i])
    ensures Actions(AbuseCh, Text(text))[i] == AbuseChAction(AbuseLines(text)[i])
  {
  }
}
