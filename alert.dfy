/** The Alert document: its persisted shape, the defaults and setters a new
    alert receives, the schema validators (required fields, length limits, the
    domain and IPv4 patterns), the `age` virtual and the `resolve` method.
    As for domains, the stored form is the value `AlertDoc` and the in-memory
    document is the class `Alert`. */
module AlertModel {
  import opened Wrappers
  import opened JsStrings
  import DomainModel

  const DAY_MS: int := 1000 * 60 * 60 * 24

  /** A user's ObjectId, as text. */
  type UserId = string

  datatype Severity = Low | Medium | High | Critical

  datatype AlertCategory = Phishing | Malware | SuspiciousDomain | DataBreach | Vulnerability | Other

  datatype AlertSource = Manual | Osint | Api | System

  datatype Status = New | Investigating | Resolved | FalsePositive

  datatype AlertDoc = AlertDoc(
    title: Option<string>,
    description: Option<string>,
    severity: Severity,
    category: AlertCategory,
    source: AlertSource,
    domain: Option<string>,
    ipAddress: Option<string>,
    status: Status,
    createdBy: Option<UserId>,
    resolvedAt: Option<int>,
    resolvedBy: Option<UserId>,
    resolution: Option<string>,
    createdAt: int)

  /** The fields a request body or a service supplies when building an alert;
      None is an absent field. A body spread into a new alert may carry the
      resolution fields too. */
  datatype AlertInput = AlertInput(
    title: Option<string>,
    description: Option<string>,
    severity: Option<Severity>,
    category: Option<AlertCategory>,
    source: Option<AlertSource>,
    domain: Option<string>,
    ipAddress: Option<string>,
    status: Option<Status>,
    createdBy: Option<UserId>,
    resolvedAt: Option<int>,
    resolvedBy: Option<UserId>,
    resolution: Option<string>)

  // ---------------------------------------------------------------- setters and defaults

  /** The `trim` setter, applied to a present string. */
  function TrimField(v: Option<string>): (r: Option<string>)
    ensures r.None? <==> v.None?
    ensures r.Some? ==> r.value == Trim(v.value)
  {
    match v
    case None => None
    case Some(s) => Some(Trim(s))
  }

  /** The `trim` and `lowercase` setters of the `domain` path. */
  function DomainField(v: Option<string>): (r: Option<string>)
    ensures r.None? <==> v.None?
    ensures r.Some? ==> r.value == DomainModel.DomainSetter(v.value)
  {
    match v
    case None => None
    case Some(s) => Some(DomainModel.DomainSetter(s))
  }

  /** `new Alert(input)` at time `now`: severity medium, category other,
      source manual and status new unless given; the `trim` setters on the
      texts and the `trim` and `lowercase` setters on the domain; no
      resolution unless given (`resolvedAt` defaults to null). */
  function NewAlert(input: AlertInput, now: int): (a: AlertDoc)
    ensures a.title == TrimField(input.title) && a.description == TrimField(input.description)
    ensures a.domain == DomainField(input.domain) && a.ipAddress == TrimField(input.ipAddress)
    ensures a.severity == input.severity.GetOr(Medium)
    ensures a.category == input.category.GetOr(Other)
    ensures a.source == input.source.GetOr(Manual)
    ensures a.status == input.status.GetOr(New)
    ensures a.resolvedAt == input.resolvedAt && a.resolvedBy == input.resolvedBy
    ensures a.resolution == TrimField(input.resolution)
    ensures a.createdBy == input.createdBy && a.createdAt == now
  {
    AlertDoc(TrimField(input.title), TrimField(input.description),
             input.severity.GetOr(Medium), input.category.GetOr(Other),
             input.source.GetOr(Manual), DomainField(input.domain),
             TrimField(input.ipAddress), input.status.GetOr(New), input.createdBy,
             input.resolvedAt, input.resolvedBy, TrimField(input.resolution), now)
  }

  /** An alert built from nothing but a title, a description and a creator
      takes every default. */
  lemma NewAlertDefaults(title: string, description: string, user: UserId, now: int)
    ensures var a := NewAlert(AlertInput(Some(title), Some(description), None, None, None, None, None, None, Some(user),
                                         None, None, None), now);
      a.severity == Medium && a.category == Other && a.source == Manual && a.status == New
      && a.domain.None? && a.ipAddress.None?
      && a.resolvedAt.None? && a.resolvedBy.None? && a.resolution.None?
  {
  }

  // ---------------------------------------------------------------- validation

  /** Mongoose's `required` validator on a string: present and not empty. */
  predicate RequiredString(v: Option<string>) {
    v.Some? && v.value != ""
  }

  /** The `maxlength` validator: an absent value passes. */
  predicate WithinLength(v: Option<string>, max: nat) {
    v.None? || |v.value| <= max
  }

  /** The `match` validator: absent and empty values are not tested. */
  predicate MatchesWhenPresent(v: Option<string>, pattern: string -> bool) {
    v.None? || v.value == "" || pattern(v.value)
  }

  /** The fields that fail validation when the alert is saved. */
  function Violations(a: AlertDoc): (v: seq<string>)
    ensures v == [] <==> IsValidAlert(a)
    ensures a.createdBy.None? ==> "createdBy" in v
  {
    (if RequiredString(a.title) && WithinLength(a.title, 200) then [] else ["title"])
    + (if RequiredString(a.description) && WithinLength(a.description, 1000) then [] else ["description"])
    + (if MatchesWhenPresent(a.domain, DomainModel.IsValidDomain) then [] else ["domain"])
    + (if MatchesWhenPresent(a.ipAddress, IsIPv4) then [] else ["ipAddress"])
    + (if a.createdBy.Some? then [] else ["createdBy"])
    + (if WithinLength(a.resolution, 500) then [] else ["resolution"])
  }

  predicate IsValidAlert(a: AlertDoc) {
    RequiredString(a.title) && WithinLength(a.title, 200)
    && RequiredString(a.description) && WithinLength(a.description, 1000)
    && MatchesWhenPresent(a.domain, DomainModel.IsValidDomain)
    && MatchesWhenPresent(a.ipAddress, IsIPv4)
    && a.createdBy.Some?
    && WithinLength(a.resolution, 500)
  }

  /** The limits: a title over 200, a description over 1000 or a resolution
      over 500 characters is refused, and so is a title that trims to nothing. */
  lemma LengthLimits(a: AlertDoc)
    ensures a.title.Some? && |a.title.value| > 200 ==> !IsValidAlert(a)
    ensures a.description.Some? && |a.description.value| > 1000 ==> !IsValidAlert(a)
    ensures a.resolution.Some? && |a.resolution.value| > 500 ==> !IsValidAlert(a)
    ensures a.title == Some("") ==> !IsValidAlert(a)
  {
  }

  // ---------------------------------------------------------------- the IPv4 pattern

  /** One octet of the address pattern, alternative by alternative:
      `25[0-5]`, `2[0-4][0-9]`, or `[01]?[0-9][0-9]?`. */
  predicate OctetPattern(s: string) {
    (|s| == 3 && s[0] == '2' && s[1] == '5' && '0' <= s[2] <= '5')
    || (|s| == 3 && s[0] == '2' && '0' <= s[1] <= '4' && IsDigit(s[2]))
    || (|s| == 1 && IsDigit(s[0]))
    || (|s| == 2 && IsDigit(s[0]) && IsDigit(s[1]))
    || (|s| == 3 && (s[0] == '0' || s[0] == '1') && IsDigit(s[1]) && IsDigit(s[2]))
  }

  /** The anchored address pattern: octets contain no `.`, so a match is four
      `.`-separated parts that each fit the octet pattern. */
  predicate IsIPv4(s: string) {
    var parts := Split(s, '.');
    |parts| == 4 && forall i :: 0 <= i < 4 ==> OctetPattern(parts[i])
  }

  /** The octet alternatives accept exactly the one- to three-digit strings
      whose value is at most 255 (leading zeros included). */
  lemma OctetPatternIff(s: string)
    ensures OctetPattern(s) <==> 1 <= |s| <= 3 && AllDigits(s) && DecimalValue(s) <= 255
  {
    if 1 <= |s| <= 3 && AllDigits(s) {
      var d0 := DigitValue(s[0]);
      assert DecimalValue(s[..1]) == d0 by {
        assert s[..1][..0] == [];
      }
      if |s| == 3 {
        var p := s[..2];
        assert p[..1] == s[..1] && p[1] == s[1];
        assert DecimalValue(p) == 10 * d0 + DigitValue(s[1]);
        assert DecimalValue(s) == 100 * d0 + 10 * DigitValue(s[1]) + DigitValue(s[2]);
      } else if |s| == 2 {
        assert DecimalValue(s) == 10 * d0 + DigitValue(s[1]);
      }
    }
  }

  /** The address pattern as a statement about values: four parts, each one to
      three digits with value at most 255. */
  lemma IPv4Iff(s: string)
    ensures IsIPv4(s) <==>
      var parts := Split(s, '.');
      |parts| == 4 && forall i :: 0 <= i < 4 ==>
        1 <= |parts[i]| <= 3 && AllDigits(parts[i]) && DecimalValue(parts[i]) <= 255
  {
    var parts := Split(s, '.');
    forall i | 0 <= i < |parts| {
      OctetPatternIff(parts[i]);
    }
  }

  /** Joining four octets with `.` gives an address the pattern accepts, and
      splitting it gives the octets back. */
  lemma IPv4OfOctets(a: string, b: string, c: string, d: string)
    requires OctetPattern(a) && OctetPattern(b) && OctetPattern(c) && OctetPattern(d)
    ensures IsIPv4(Join([a, b, c, d], '.'))
    ensures Split(Join([a, b, c, d], '.'), '.') == [a, b, c, d]
  {
    var parts := [a, b, c, d];
    forall i | 0 <= i < 4 ensures '.' !in parts[i] {
      assert !IsDigit('.');
    }
    SplitJoin(parts, '.');
  }

  // ---------------------------------------------------------------- age

  /** The `age` virtual: whole days since creation, rounded down. */
  function Age(createdAt: int, now: int): (days: int)
    ensures DAY_MS * days <= now - createdAt < DAY_MS * (days + 1)
  {
    (now - createdAt) / DAY_MS
  }

  lemma AgeUnique(createdAt: int, now: int, days: int)
    requires DAY_MS * days <= now - createdAt < DAY_MS * (days + 1)
    ensures Age(createdAt, now) == days
  {
  }

  // ---------------------------------------------------------------- resolve

  /** The document after `resolve(userId, resolution)` at time `now`; the
      `trim` setter applies to the resolution text. */
  function ResolvedDoc(a: AlertDoc, userId: UserId, resolution: Option<string>, now: int): AlertDoc {
    a.(status := Resolved, resolvedAt := Some(now), resolvedBy := Some(userId), resolution := TrimField(resolution))
  }

  /** Resolving sets exactly four fields and leaves every other one alone. */
  lemma ResolveSetsFourFields(a: AlertDoc, userId: UserId, resolution: Option<string>, now: int)
    ensures var r := ResolvedDoc(a, userId, resolution, now);
      r.status == Resolved && r.resolvedAt == Some(now) && r.resolvedBy == Some(userId)
      && r.resolution == TrimField(resolution)
      && r.(status := a.status, resolvedAt := a.resolvedAt, resolvedBy := a.resolvedBy,
            resolution := a.resolution) == a
  {
  }

  /** A partial update from a request body: every present field overwrites
      the stored one (`Object.assign`), through the same setters. */
  datatype AlertPatch = AlertPatch(
    title: Option<string>,
    description: Option<string>,
    severity: Option<Severity>,
    category: Option<AlertCategory>,
    status: Option<Status>,
    domain: Option<string>,
    ipAddress: Option<string>,
    resolution: Option<string>,
    createdBy: Option<UserId>)

  function Override<T>(current: T, given: Option<T>): T {
    given.GetOr(current)
  }

  /** A text field of the body, through the `trim` setter when given. */
  function SetText(current: Option<string>, given: Option<string>): Option<string> {
    if given.Some? then TrimField(given) else current
  }

  /** The alert after `Object.assign(alert, body)`: a given field replaces the
      stored one, through its setter; an absent field keeps its value. */
  function Patched(a: AlertDoc, p: AlertPatch): (r: AlertDoc)
    ensures p.title.Some? ==> r.title == TrimField(p.title)
    ensures p.title.None? ==> r.title == a.title
    ensures p.description.Some? ==> r.description == TrimField(p.description)
    ensures p.description.None? ==> r.description == a.description
    ensures p.severity.Some? ==> r.severity == p.severity.value
    ensures p.severity.None? ==> r.severity == a.severity
    ensures p.category.Some? ==> r.category == p.category.value
    ensures p.category.None? ==> r.category == a.category
    ensures p.status.Some? ==> r.status == p.status.value
    ensures p.status.None? ==> r.status == a.status
    ensures p.domain.Some? ==> r.domain == DomainField(p.domain)
    ensures p.domain.None? ==> r.domain == a.domain
    ensures p.ipAddress.Some? ==> r.ipAddress == TrimField(p.ipAddress)
    ensures p.ipAddress.None? ==> r.ipAddress == a.ipAddress
    ensures p.resolution.Some? ==> r.resolution == TrimField(p.resolution)
    ensures p.resolution.None? ==> r.resolution == a.resolution
    ensures p.createdBy.Some? ==> r.createdBy == p.createdBy
    ensures p.createdBy.None? ==> r.createdBy == a.createdBy
    ensures r.createdAt == a.createdAt && r.source == a.source
    ensures r.resolvedAt == a.resolvedAt && r.resolvedBy == a.resolvedBy
    ensures p == AlertPatch(None, None, None, None, None, None, None, None, None) ==> r == a
  {
    AlertDoc(SetText(a.title, p.title), SetText(a.description, p.description),
             Override(a.severity, p.severity), Override(a.category, p.category), a.source,
             if p.domain.Some? then DomainField(p.domain) else a.domain,
             SetText(a.ipAddress, p.ipAddress), Override(a.status, p.status),
             if p.createdBy.Some? then p.createdBy else a.createdBy,
             a.resolvedAt, a.resolvedBy, SetText(a.resolution, p.resolution), a.createdAt)
  }

  // ---------------------------------------------------------------- the document

  class Alert {
    var title: Option<string>
    var description: Option<string>
    var severity: Severity
    var category: AlertCategory
    var source: AlertSource
    var domain: Option<string>
    var ipAddress: Option<string>
    var status: Status
    var createdBy: Option<UserId>
    var resolvedAt: Option<int>
    var resolvedBy: Option<UserId>
    var resolution: Option<string>
    var createdAt: int

    function Doc(): AlertDoc
      reads this
    {
      AlertDoc(title, description, severity, category, source, domain, ipAddress,
               status, createdBy, resolvedAt, resolvedBy, resolution, createdAt)
    }

    /** Hydrates a stored alert (what `findById` returns). */
    constructor FromDoc(a: AlertDoc)
      ensures Doc() == a
    {
      title, description, severity, category := a.title, a.description, a.severity, a.category;
      source, domain, ipAddress, status := a.source, a.domain, a.ipAddress, a.status;
      createdBy, resolvedAt, resolvedBy := a.createdBy, a.resolvedAt, a.resolvedBy;
      resolution, createdAt := a.resolution, a.createdAt;
    }

    /** `resolve(userId, resolution)` with the clock reading `now`: status,
        resolution time, resolver and resolution text are set and nothing else
        changes; then `save()`, which succeeds exactly when the resolved alert
        validates. */
    method Resolve(userId: UserId, resolutionText: Option<string>, now: int) returns (saved: bool)
      modifies this
      ensures Doc() == ResolvedDoc(old(Doc()), userId, resolutionText, now)
      ensures status == Resolved && resolvedAt == Some(now) && resolvedBy == Some(userId)
      ensures saved <==> IsValidAlert(Doc())
    {
      status := Resolved;
      resolvedAt := Some(now);
      resolvedBy := Some(userId);
      resolution := TrimField(resolutionText);
      saved := Violations(Doc()) == [];
    }

    /** `Object.assign(alert, body)`. */
    method Assign(p: AlertPatch)
      modifies this
      ensures Doc() == Patched(old(Doc()), p)
    {
      SetPatchable(Patched(Doc(), p));
    }

    /** Writes the fields a patch can reach; the others must already agree. */
    method SetPatchable(a: AlertDoc)
      requires a.source == source && a.createdAt == createdAt
      requires a.resolvedAt == resolvedAt && a.resolvedBy == resolvedBy
      modifies this
      ensures Doc() == a
    {
      title, description, severity, category := a.title, a.description, a.severity, a.category;
      status, domain, ipAddress := a.status, a.domain, a.ipAddress;
      resolution, createdBy := a.resolution, a.createdBy;
    }
  }
}
