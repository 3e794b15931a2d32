/** The decision logic of the domain handlers: `checkDomain` answers from the
    stored list before running the scorer, `addSuspiciousDomain` refuses a
    name already listed and otherwise stores a rescored document and raises
    an alert, `updateDomain` patches and rescores, `deleteDomain` only
    deactivates. The collection is a map keyed by the stored form of the
    name, which the unique index on `domain` makes a function of the name;
    alerts go to an alert store keyed by id. */
module DomainController {
  import opened Wrappers
  import opened RiskLevels
  import opened DomainModel
  import opened DomainHeuristics
  import opened Responses
  import AlertModel

  type DomainStore = map<string, DomainDoc>

  /** Every document is stored under its own name. */
  predicate WellKeyed(store: DomainStore) {
    forall k :: k in store ==> store[k].domain == k
  }

  /** Storing a document under its own name keeps the store well keyed. */
  lemma StoreUnderOwnName(store: DomainStore, d: DomainDoc)
    requires WellKeyed(store)
    ensures WellKeyed(store[d.domain := d])
  {
  }

  /** The name `findOne({domain: n})` looks up: the path's setters apply to
      the query value too. */
  function LookupKey(normalized: string): string {
    DomainSetter(normalized)
  }

  // ---------------------------------------------------------------- checkDomain

  datatype ReportSource = Database | HeuristicAnalysis

  /** The `data` object of a successful check; `seen` holds `firstSeen` and
      `lastSeen`, which only the stored answer carries. */
  datatype CheckReport = CheckReport(
    domain: string,
    isSuspicious: bool,
    riskLevel: RiskLevel,
    riskScore: int,
    category: Category,
    indicators: seq<Indicator>,
    seen: Option<(int, int)>,
    source: ReportSource)

  function StoredReport(normalized: string, d: DomainDoc): CheckReport {
    CheckReport(normalized, true, d.riskLevel, d.riskScore, d.category, d.indicators,
                Some((d.firstSeen, d.lastSeen)), Database)
  }

  function HeuristicReport(normalized: string, a: HeuristicResult): CheckReport {
    CheckReport(normalized, a.isSuspicious, a.riskLevel, a.riskScore, a.category, a.indicators,
                None, HeuristicAnalysis)
  }

  /** `checkDomain`. A missing or empty name is refused; a listed name is
      answered from the store (always suspicious, whatever its score, and
      also when it was soft-deleted, since the lookup does not filter on
      `isActive`); any other name goes to the scorer. */
  method CheckDomain(store: DomainStore, domain: Option<string>) returns (res: Result<CheckReport, HttpError>)
    ensures domain.None? || domain.value == [] ==> res == Failure(BadRequest("Domain is required"))
    ensures domain.Some? && domain.value != [] ==> res.Success?
    ensures res.Success? ==>
      var n := Normalize(domain.value);
      res.value.domain == n
      && (LookupKey(n) in store ==> res.value == StoredReport(n, store[LookupKey(n)]))
      && (LookupKey(n) !in store ==> res.value == HeuristicReport(n, Analyze(n)))
    ensures res.Success? && res.value.source == Database ==> res.value.isSuspicious
  {
    if domain.None? || domain.value == [] {
      return Failure(BadRequest("Domain is required"));
    }
    var n := Normalize(domain.value);
    var key := LookupKey(n);
    if key in store {
      return Success(StoredReport(n, store[key]));
    }
    var analysis := PerformHeuristicAnalysis(n);
    return Success(HeuristicReport(n, analysis));
  }

  /** A name that is listed is reported with its stored score, level and
      category, whatever the scorer would say of it; a name that is not is
      reported exactly as the scorer rates it. */
  lemma ReportsAgreeWithSources(n: string, d: DomainDoc)
    ensures StoredReport(n, d).riskScore == d.riskScore && StoredReport(n, d).category == d.category
    ensures StoredReport(n, d).isSuspicious
    ensures HeuristicReport(n, Analyze(n)).isSuspicious <==> Analyze(n).isSuspicious
    ensures 0 <= HeuristicReport(n, Analyze(n)).riskScore <= 100
    ensures HeuristicReport(n, Analyze(n)).riskLevel == Bucket(HeuristicReport(n, Analyze(n)).riskScore)
  {
  }

  // ---------------------------------------------------------------- addSuspiciousDomain

  /** The level as the template literal prints it. */
  function LevelName(level: RiskLevel): string {
    match level
    case Low => "low"
    case Medium => "medium"
    case High => "high"
    case Critical => "critical"
  }

  /** The alert severity for a newly listed domain: critical and high carry
      over, every lower level becomes medium. */
  function SeverityFor(level: RiskLevel): (sev: AlertModel.Severity)
    ensures sev != AlertModel.Low
    ensures sev == AlertModel.Critical <==> level == Critical
    ensures sev == AlertModel.High <==> level == High
    ensures Rank(level) <= 1 <==> sev == AlertModel.Medium
  {
    if level == Critical then AlertModel.Critical
    else if level == High then AlertModel.High
    else AlertModel.Medium
  }

  /** The alert raised when `normalized` is listed with level `level`. */
  function AddedAlert(normalized: string, level: RiskLevel, user: AlertModel.UserId, now: int): (a: AlertModel.AlertDoc)
    ensures a.category == AlertModel.SuspiciousDomain && a.source == AlertModel.Manual
    ensures a.severity == SeverityFor(level) && a.createdBy == Some(user)
    ensures a.status == AlertModel.New
  {
    AlertModel.NewAlert(
      AlertModel.AlertInput(
        Some("New Suspicious Domain Detected: " + normalized),
        Some("Domain " + normalized + " has been added to the suspicious domains list. Risk Level: " + LevelName(level)),
        Some(SeverityFor(level)), Some(AlertModel.SuspiciousDomain), Some(AlertModel.Manual),
        Some(normalized), None, None, Some(user), None, None, None),
      now)
  }

  /** The document a successful add stores for `normalized`. */
  function ListedDoc(normalized: string, category: Option<Category>, indicators: Option<seq<Indicator>>, now: int): (d: DomainDoc)
    ensures d.domain == LookupKey(normalized) && d.source == Manual
    ensures d.category == category.GetOr(Suspicious) && d.indicators == indicators.GetOr([])
    ensures Consistent(d) && d.isActive
  {
    Rescore(NewDomainDoc(normalized, category.GetOr(Suspicious), Manual, indicators.GetOr([]), now), now)
  }

  /** The decisions of `addSuspiciousDomain` once the name is normalised to
      the lookup `key`, the document `doc` is built and the alert `alert`
      composed: a listed name is refused with nothing created; otherwise
      the document is saved and then the alert, whose own validation can
      still fail after the domain is stored. `alertId` is the new alert's id. */
  function AddOutcome(store: DomainStore, alerts: map<string, AlertModel.AlertDoc>, key: string,
                      doc: DomainDoc, alertId: string, alert: AlertModel.AlertDoc)
    : (Result<DomainDoc, HttpError>, DomainStore, map<string, AlertModel.AlertDoc>)
  {
    if key in store then (Failure(BadRequest("Domain already exists in suspicious domains list")), store, alerts)
    else if !IsValidDoc(doc) then (Failure(ServerError("Failed to add suspicious domain")), store, alerts)
    else if alertId in alerts || !AlertModel.IsValidAlert(alert) then
      (Failure(ServerError("Failed to add suspicious domain")), store[key := doc], alerts)
    else (Success(doc), store[key := doc], alerts[alertId := alert])
  }

  /** The add for the normalised name `n`. */
  function AddNormalized(store: DomainStore, alerts: map<string, AlertModel.AlertDoc>, n: string,
                         category: Option<Category>, indicators: Option<seq<Indicator>>,
                         user: AlertModel.UserId, alertId: string, now: int)
    : (Result<DomainDoc, HttpError>, DomainStore, map<string, AlertModel.AlertDoc>)
  {
    var doc := ListedDoc(n, category, indicators, now);
    AddOutcome(store, alerts, LookupKey(n), doc, alertId, AddedAlert(n, doc.riskLevel, user, now))
  }

  /** The outcomes of an add: it succeeds exactly when the name is new, the
      document and the alert validate and the alert id is free, and then
      both are stored; a failure never stores the alert, and stores the
      document only when it was the alert that failed. A store that keeps
      every document under its own name goes on doing so. */
  lemma AddOutcomes(store: DomainStore, alerts: map<string, AlertModel.AlertDoc>, key: string,
                    doc: DomainDoc, alertId: string, alert: AlertModel.AlertDoc)
    ensures var (res, store', alerts') := AddOutcome(store, alerts, key, doc, alertId, alert);
      (key in store ==>
         res == Failure(BadRequest("Domain already exists in suspicious domains list"))
         && store' == store && alerts' == alerts)
      && (res.Success? <==>
            key !in store && IsValidDoc(doc) && alertId !in alerts && AlertModel.IsValidAlert(alert))
      && (res.Success? ==> res.value == doc && store' == store[key := doc] && alerts' == alerts[alertId := alert])
      && (res.Failure? ==> alerts' == alerts)
      && (res.Failure? && store' != store ==>
            store' == store[key := doc] && res.error == ServerError("Failed to add suspicious domain"))
      && (WellKeyed(store) && doc.domain == key ==> WellKeyed(store'))
  {
    if WellKeyed(store) && doc.domain == key {
      StoreUnderOwnName(store, doc);
    }
  }

  /** `addSuspiciousDomain`: a missing name makes the normaliser throw;
      otherwise the normalised name is added. */
  method AddSuspiciousDomain(store: DomainStore, alerts: map<string, AlertModel.AlertDoc>,
                             domain: Option<string>, category: Option<Category>,
                             indicators: Option<seq<Indicator>>, user: AlertModel.UserId,
                             alertId: string, now: int)
    returns (res: Result<DomainDoc, HttpError>, store': DomainStore, alerts': map<string, AlertModel.AlertDoc>)
    ensures domain.None? ==>
      res == Failure(ServerError("Failed to add suspicious domain")) && store' == store && alerts' == alerts
    ensures domain.Some? ==>
      (res, store', alerts')
        == AddNormalized(store, alerts, Normalize(domain.value), category, indicators, user, alertId, now)
  {
    if domain.None? {
      return Failure(ServerError("Failed to add suspicious domain")), store, alerts;
    }
    var n := Normalize(domain.value);
    res, store', alerts' := AddNormalizedDomain(store, alerts, n, category, indicators, user, alertId, now);
  }

  /** The handler after normalisation: look up, build the document, then
      save it and the alert. */
  method AddNormalizedDomain(store: DomainStore, alerts: map<string, AlertModel.AlertDoc>, n: string,
                             category: Option<Category>, indicators: Option<seq<Indicator>>,
                             user: AlertModel.UserId, alertId: string, now: int)
    returns (res: Result<DomainDoc, HttpError>, store': DomainStore, alerts': map<string, AlertModel.AlertDoc>)
    ensures (res, store', alerts') == AddNormalized(store, alerts, n, category, indicators, user, alertId, now)
  {
    var key := LookupKey(n);
    if key in store {
      return Failure(BadRequest("Domain already exists in suspicious domains list")), store, alerts;
    }
    var doc := BuildListedDoc(n, category, indicators, now);
    res, store', alerts' := SaveListed(store, alerts, key, doc, alertId, AddedAlert(n, doc.riskLevel, user, now));
  }

  /** Saving a new document under `key` and then its alert; either save
      can fail validation. */
  method SaveListed(store: DomainStore, alerts: map<string, AlertModel.AlertDoc>, key: string,
                    doc: DomainDoc, alertId: string, alert: AlertModel.AlertDoc)
    returns (res: Result<DomainDoc, HttpError>, store': DomainStore, alerts': map<string, AlertModel.AlertDoc>)
    requires key !in store
    ensures (res, store', alerts') == AddOutcome(store, alerts, key, doc, alertId, alert)
  {
    if Violations(doc) != [] {
      return Failure(ServerError("Failed to add suspicious domain")), store, alerts;
    }
    store' := store[key := doc];
    var saved;
    saved, alerts' := SaveAlert(alerts, alertId, alert);
    if !saved {
      return Failure(ServerError("Failed to add suspicious domain")), store', alerts';
    }
    return Success(doc), store', alerts';
  }

  /** The new document: built with the defaults, then rescored. */
  method BuildListedDoc(n: string, category: Option<Category>, indicators: Option<seq<Indicator>>, now: int)
    returns (doc: DomainDoc)
    ensures doc == ListedDoc(n, category, indicators, now)
  {
    var sd := new SuspiciousDomain(n, category.GetOr(Suspicious), Manual, indicators.GetOr([]), now);
    var firstSave := sd.UpdateRiskScore(now);
    doc := sd.Doc();
  }

  /** `alert.save()` for a new alert: validated, and refused on an id in use. */
  method SaveAlert(alerts: map<string, AlertModel.AlertDoc>, id: string, a: AlertModel.AlertDoc)
    returns (saved: bool, alerts': map<string, AlertModel.AlertDoc>)
    ensures saved <==> id !in alerts && AlertModel.IsValidAlert(a)
    ensures saved ==> alerts' == alerts[id := a]
    ensures !saved ==> alerts' == alerts
  {
    var alert := new AlertModel.Alert.FromDoc(a);
    var doc := alert.Doc();
    if id in alerts || AlertModel.Violations(doc) != [] {
      return false, alerts;
    }
    return true, alerts[id := doc];
  }

  // ---------------------------------------------------------------- updateDomain and deleteDomain

  /** `updateDomain`: the patch, then the rescoring, then a validated save. */
  method UpdateDomain(store: DomainStore, key: string, patch: DomainPatch, now: int)
    returns (res: Result<DomainDoc, HttpError>, store': DomainStore)
    ensures key !in store ==> res == Failure(NotFound("Domain not found"))
    ensures res.Success? <==> key in store && IsValidDoc(Rescore(Patched(store[key], patch), now))
    ensures res.Success? ==>
      res.value == Rescore(Patched(store[key], patch), now)
      && Consistent(res.value)
      && store' == store[key := res.value]
    ensures res.Failure? ==> store' == store
    ensures WellKeyed(store) ==> WellKeyed(store')
  {
    if key !in store {
      return Failure(NotFound("Domain not found")), store;
    }
    var sd := new SuspiciousDomain.FromDoc(store[key]);
    sd.Assign(patch);
    var firstSave := sd.UpdateRiskScore(now);
    var doc := sd.Doc();
    if Violations(doc) != [] {
      return Failure(ServerError("Failed to update domain")), store;
    }
    return Success(doc), store[key := doc];
  }

  /** `deleteDomain`: a soft delete. The document stays in the store, under
      the same name and with every other field as it was; only `isActive`
      becomes false. */
  method DeleteDomain(store: DomainStore, key: string)
    returns (res: Result<string, HttpError>, store': DomainStore)
    ensures key !in store ==> res == Failure(NotFound("Domain not found")) && store' == store
    ensures res.Success? <==> key in store && IsValidDoc(store[key])
    ensures res.Success? ==>
      store'.Keys == store.Keys
      && store' == store[key := store[key].(isActive := false)]
      && !store'[key].isActive
    ensures res.Failure? ==> store' == store
    ensures WellKeyed(store) ==> WellKeyed(store')
  {
    if key !in store {
      return Failure(NotFound("Domain not found")), store;
    }
    var sd := new SuspiciousDomain.FromDoc(store[key]);
    sd.isActive := false;
    var doc := sd.Doc();
    if Violations(doc) != [] {
      return Failure(ServerError("Failed to delete domain")), store;
    }
    return Success("Domain deleted successfully"), store[key := doc];
  }
}
