# CyberGuard threat-intelligence core, modelled in Dafny

CyberGuard keeps a list of suspicious domains and a log of security alerts.
Its analysts add, check, update and soft-delete domains. They create,
update, resolve and delete alerts. A background OSINT fetcher pulls three
feeds, PhishTank, Abuse.ch and VirusTotal. The fetched items are upserted
into the domain list and may raise alerts. This project models the logic
behind all of this, and the front end's authentication reducer:

- **Domain normaliser and heuristic scorer** (`DomainHeuristics`). The
  normaliser lower-cases, trims and strips one leading `http://` or
  `https://` and then one `www.`. The scorer runs five checks: typosquatting
  of five brands, a suspicious TLD, length, digits and hyphens. Each check
  that fires appends one fixed-confidence indicator and adds its weight.
  The scorer is an imperative method, proved equal to the function `Analyze`.
- **Persisted-record rescoring** (`DomainModel`). `updateRiskScore` sums the
  indicator confidences, counting a missing or zero confidence as 50. It
  applies the category floor, then the SSL and registration-age
  adjustments, clamps the result to 0..100 and buckets the level.
  `addIndicator` appends an indicator and rescores. The module also holds the
  schema's domain pattern and validators and the `reputationPercentage`
  virtual. A stored document is the value `DomainDoc`. The in-memory
  Mongoose document is the class `SuspiciousDomain`, whose methods change
  its fields.
- **Domain handlers** (`DomainController`): `checkDomain`,
  `addSuspiciousDomain` (the normaliser, the duplicate check, the document,
  the alert), `updateDomain` and the soft delete in `deleteDomain`. The
  collection is a map keyed by the stored form of the name.
- **Alerts** (`AlertModel`, `AlertController`). The alert schema covers
  defaults, setters, required fields, length limits, and the domain and
  IPv4 patterns. The module also models the `age` virtual and `resolve`.
  The handlers model the creator override on create, creator-or-admin
  authorisation on update and delete, and the preconditions of resolve.
- **Pagination** (`Pagination`): the skip and `totalPages` arithmetic of
  the listings.
- **OSINT ingestion** (`OsintFeeds`, `OsintFetcher`). `OsintFeeds` holds the
  per-item decisions of the three processors as functions, along with
  `extractDomain`, the upsert, the 24-hour alert de-duplication and the fold
  of a processor over its items. `OsintFetcher.Fetcher` is a class:
  - its fields are the scheduler state and the domain map and alert sequence;
  - its methods `start`, `stop`, `fetchOSINTData`, `fetchFromSource`, the
    three processors, `addSuspiciousDomain`, `createAlert` and `getStatus`
    are proved against those functions.
- **Authentication state** (`AuthContext`): the seven-action reducer, the
  `updateUser` merge, and the action sequences that login, registration and
  the start-up check dispatch.

The clock reading (`now`, in integer milliseconds), the API keys' presence,
the feed payloads (`Feeds`: a live body or its absence, and the parsed
fallback file), the requesting user and the new documents' ids are all
parameters.

Behaviour of the code that the model reproduces as written:

- `fetchFromSource` declares `result` as a constant and later assigns the
  processor's counts to it. The assignment throws after the processor's
  writes are done. So every source is reported with its error, the cycle
  totals stay zero, and the collections still change (`FetchFromSource`,
  `FetchOSINTData`).
- Alerts built by the fetcher have a null `createdBy`, which the alert schema
  requires. They never save, so `alertsCreated` is always 0
  (`SystemAlertsNeverSave`, `FoldCounts`).
- The authorisation test reads the creator's id before the role. On an
  alert without a creator it throws, even for an administrator, and the
  handler answers 500 (`Authorize`).
- Resolving an alert needs no ownership (`ResolveAlert`).
- `checkDomain` looks the name up without filtering on `isActive`. A
  soft-deleted name is therefore still answered from the store as
  suspicious (`CheckDomain`).
- The normaliser is not idempotent. `www.www.a.com` becomes `www.a.com`
  and only then `a.com` (`NormalizeNotIdempotent`). It strips no trailing
  path, so `https://www.Example.COM/` keeps its `/`; the proved example is
  `https://www.Example.COM` without the slash.
- The domain pattern admits exactly one label and a TLD, so no subdomain
  passes (`SubdomainExample`, `ValidDomainHasOneDot`).
- `updateUser` dispatches `SET_USER`. It therefore signs the user in even
  from a signed-out state (`UpdateUser`).
- `LOGIN_SUCCESS` takes the user from the response data without checking
  it. A login or registration response without a `user` therefore ends
  authenticated with no user, the one way the state loses "authenticated
  exactly when a user is held" (`ReduceKeepsConsistent`, `SignInSettles`).

## Model

| member | source | states |
|---|---|---|
| JsStrings.ToLower | backend/src/controllers/domainController.js:97 | `toLowerCase`: same length, each character case-mapped, no upper-case letter left |
| JsStrings.ToLowerOfLower | backend/src/controllers/domainController.js:97 | a string already in lower case is unchanged |
| JsStrings.ToLowerConcat | backend/src/controllers/domainController.js:97 | case mapping distributes over concatenation |
| JsStrings.TrimStart | backend/src/controllers/domainController.js:97 | what `trim` drops at the front is all white space, and the rest does not start with white space |
| JsStrings.TrimStartSuffix | backend/src/controllers/domainController.js:97 | what the front trim keeps is a suffix of the input |
| JsStrings.TrimEnd | backend/src/controllers/domainController.js:97 | what `trim` drops at the end is all white space; the rest is a prefix not ending in white space |
| JsStrings.TrimFixpoint | backend/src/controllers/domainController.js:97 | `trim` returns its input exactly when the input neither starts nor ends with white space |
| JsStrings.TrimOfLower | backend/src/controllers/domainController.js:97 | trimming a lower-case string leaves it lower case |
| JsStrings.ContainsIff | backend/src/controllers/domainController.js:331 | `includes` holds exactly when the pattern occurs at some position |
| JsStrings.IndexOf | backend/src/models/SuspiciousDomain.js:10 | `indexOf`: -1 exactly when absent, otherwise the first position of the character |
| JsStrings.LastIndexOf | backend/src/controllers/domainController.js:344 | `lastIndexOf`: -1 exactly when absent, otherwise a position with no later occurrence |
| JsStrings.LastIndexOfAt | backend/src/controllers/domainController.js:344 | those two properties pin the position down uniquely |
| JsStrings.NoDigits | backend/src/controllers/domainController.js:365 | a name without digits has digit count 0 |
| JsStrings.CountAbsent | backend/src/controllers/domainController.js:376 | a name without `-` has hyphen count 0 |
| JsStrings.Split | backend/src/services/osintFetcher.js:207 | `split` yields at least one part and no part contains the separator |
| JsStrings.JoinSplit | backend/src/services/osintFetcher.js:207 | joining the parts of a split with the separator gives the string back |
| JsStrings.SplitJoin | backend/src/models/Alert.js:43 | splitting a join of separator-free parts gives the parts back |
| JsStrings.NatToString | backend/src/services/osintFetcher.js:265 | `String(n)`: a digit string whose decimal value is n, with no leading zero |
| RiskLevels.Clamp100 | backend/src/models/SuspiciousDomain.js:167 | the result is in 0..100, is the input when that is in range, and 0 or 100 beyond |
| RiskLevels.BucketMonotone | backend/src/models/SuspiciousDomain.js:170-173 | a higher score never gets a lower level under the 80/60/40 thresholds |
| RiskLevels.BucketOfCapped | backend/src/controllers/domainController.js:387-395 | the level of the raw score equals the level of the score capped at 100 |
| Pagination.Skip | backend/src/controllers/domainController.js:26 | for a positive limit, the skip is non-negative exactly when the page is at least 1 |
| Pagination.SkipNextPage | backend/src/controllers/alertController.js:32 | consecutive pages are adjacent windows: page p+1 starts `limit` after page p |
| Pagination.TotalPages | backend/src/controllers/domainController.js:44 | no page count (JSON `null`) exactly for a zero limit; for a positive limit, 0 for no records and otherwise the ceiling quotient, (pages-1)*limit < total <= pages*limit |
| Pagination.CeilDiv | backend/src/controllers/alertController.js:53 | the ceiling quotient: (q-1)*d < n <= q*d for positive n, and 0 for n = 0 |
| Pagination.PageOfRecord | backend/src/controllers/alertController.js:32-53 | record j (from 0) lies on page j/limit + 1, which is between 1 and `totalPages`, inside that page's skip window |
| DomainModel.LabelHasNoDot | backend/src/models/SuspiciousDomain.js:10 | a label of the domain pattern holds no `.` |
| DomainModel.ValidDomainIff | backend/src/models/SuspiciousDomain.js:10 | deciding the pattern at the first `.` agrees with "some split into label, `.`, TLD fits" |
| DomainModel.ValidDomainHasOneDot | backend/src/models/SuspiciousDomain.js:10 | a valid name has exactly one `.`: the pattern admits no subdomain |
| DomainModel.ValidDomainAt | backend/src/models/SuspiciousDomain.js:10 | a name whose first `.` splits it into a label and a TLD is valid |
| DomainModel.InvalidDomainAt | backend/src/models/SuspiciousDomain.js:10 | a name whose first `.` does not split it into a label and a TLD is invalid |
| DomainModel.ValidDomainExample | backend/src/models/SuspiciousDomain.js:10 | `evil-test123.tk` passes the pattern |
| DomainModel.SubdomainExample | backend/src/models/SuspiciousDomain.js:10 | `login.example.com` fails the pattern |
| DomainModel.ShortLabelExample | backend/src/models/SuspiciousDomain.js:10 | `a.tk` fails the pattern: a label needs at least three characters |
| DomainModel.Violations | backend/src/models/SuspiciousDomain.js:4-64 | no violation exactly when the name matches the pattern, the score is in 0..100 and every present confidence is in 0..100 |
| DomainModel.ConfidenceSumConcat | backend/src/models/SuspiciousDomain.js:142-144 | the indicator total of a concatenation is the sum of the totals |
| DomainModel.ConfidenceSumBounds | backend/src/models/SuspiciousDomain.js:142-144 | n indicators the schema admits total between n and 100*n, since a missing or 0 confidence counts 50 |
| DomainModel.Rescore | backend/src/models/SuspiciousDomain.js:138-176 | the score is in 0..100 with its level bucketed; it is at least min(100, category floor) and at least min(100, indicator total); no other field changes |
| DomainModel.AdjustmentValues | backend/src/models/SuspiciousDomain.js:157-165 | no SSL adds 20 and expiry adds 15; a registration under 30 days adds 25, under 90 days 15, otherwise and without a date 0 |
| DomainModel.MalwareWithoutSslIsCritical | backend/src/models/SuspiciousDomain.js:142-173 | malware with no indicators and no SSL scores 100, critical |
| DomainModel.AppendNeverLowersScore | backend/src/models/SuspiciousDomain.js:142-154 | appending an indicator whose confidence is missing or non-negative never lowers the score |
| DomainModel.ReputationPercentage | backend/src/models/SuspiciousDomain.js:132-135 | 0 with no checks; otherwise the positive share in percent rounded half up (2t*p - t <= 200*pos < 2t*p + t) |
| DomainModel.RoundedQuotient | backend/src/models/SuspiciousDomain.js:134 | `Math.round` of n/t for positive t: within one half of the exact quotient |
| DomainModel.Patched | backend/src/controllers/domainController.js:216 | `Object.assign` of a body: each given category, indicator list, WHOIS, SSL or `isActive` replaces the stored value and each absent one is kept; name, source, score, level, timestamps and reputation are kept; an empty body changes nothing |
| DomainModel.SuspiciousDomain.FromDoc | backend/src/controllers/domainController.js:206 | the loaded document holds exactly the stored fields |
| DomainModel.SuspiciousDomain.constructor | backend/src/models/SuspiciousDomain.js:3-122 | a new document has the schema defaults (score 50, level medium, active, no SSL, both timestamps now) and the setters applied to the name |
| DomainModel.SuspiciousDomain.UpdateRiskScore | backend/src/models/SuspiciousDomain.js:138-176 | the document after the `forEach` sum and the adjustments is `Rescore` of the old one; the closing `save()` succeeds exactly when it validates |
| DomainModel.SuspiciousDomain.Assign | backend/src/controllers/domainController.js:216 | the document after `Object.assign` is `Patched` of the old one |
| DomainModel.SuspiciousDomain.AddIndicator | backend/src/models/SuspiciousDomain.js:179-183 | exactly one indicator appended at the end (confidence defaults to 50), earlier ones kept, `lastSeen` set, then rescored; the returned save succeeds exactly when the changed document validates |
| DomainHeuristics.StripPrefix | backend/src/controllers/domainController.js:97 | with the prefix present the input is prefix + result; otherwise the result is the input |
| DomainHeuristics.StripScheme | backend/src/controllers/domainController.js:97 | one `https://` or else one `http://` is removed; any other input is unchanged |
| DomainHeuristics.Normalize | backend/src/controllers/domainController.js:97 | the normalised name is in lower case and no longer than the input |
| DomainHeuristics.NormalizeIgnoresCase | backend/src/controllers/domainController.js:97 | a name and its lower-case form normalise alike |
| DomainHeuristics.NormalizeFixpoint | backend/src/controllers/domainController.js:97 | the normaliser leaves a name unchanged exactly when it is lower case, trimmed, and has no leading scheme or `www.` |
| DomainHeuristics.NoSchemeUnlessH | backend/src/controllers/domainController.js:97 | a name not starting with `h` has no scheme to strip |
| DomainHeuristics.Tld | backend/src/controllers/domainController.js:344 | the TLD is the suffix from the last `.` (holding no further `.`), or the whole name when it has none |
| DomainHeuristics.Analyze | backend/src/controllers/domainController.js:386-398 | the reported score is in 0..100 and the level is its bucket |
| DomainHeuristics.ScanBrands | backend/src/controllers/domainController.js:326-340 | the brand loop pushes one indicator per brand that fires, in order, adds 80 per hit, and is phishing exactly when something was pushed |
| DomainHeuristics.PerformHeuristicAnalysis | backend/src/controllers/domainController.js:321-399 | the imperative scorer returns exactly `Analyze` of the name |
| DomainHeuristics.TyposquatConfidence | backend/src/controllers/domainController.js:330-339 | every brand indicator carries confidence 80 |
| DomainHeuristics.IndicatorsSumToRawScore | backend/src/controllers/domainController.js:323-384 | the indicators' confidences sum to the raw score: each check's weight is its indicator's confidence |
| DomainHeuristics.TldConfidence | backend/src/controllers/domainController.js:343-352 | the TLD check contributes 60 exactly when the TLD is one of `.tk .ml .ga .cf .click .download` |
| DomainHeuristics.LengthConfidence | backend/src/controllers/domainController.js:355-362 | the length check contributes 40 exactly when the name has more than 30 characters |
| DomainHeuristics.DigitConfidence | backend/src/controllers/domainController.js:365-373 | the digit check contributes 30 exactly when the name has more than 3 digits |
| DomainHeuristics.HyphenConfidence | backend/src/controllers/domainController.js:376-384 | the hyphen check contributes 25 exactly when the name has more than 2 hyphens |
| DomainHeuristics.ScoreIsConfidenceSum | backend/src/controllers/domainController.js:323-395 | score = min(100, sum of indicator confidences) = min(100, raw score); suspicious exactly when the unclamped sum exceeds 30 |
| DomainHeuristics.NoHitsIff | backend/src/controllers/domainController.js:330-340 | the brand loop pushes nothing exactly when no brand check fires |
| DomainHeuristics.PhishingIff | backend/src/controllers/domainController.js:324-340 | phishing exactly when some brand check fires, suspicious otherwise; the later checks never change the category |
| HeuristicExamples.NormalizeOfClean | backend/src/controllers/domainController.js:97 | on a lower-case name without surrounding white space only the two prefix rules act |
| HeuristicExamples.NormalizeStripsWww | backend/src/controllers/domainController.js:97 | `www.` + a clean lower-case name normalises to the name |
| HeuristicExamples.NormalizeNotIdempotent | backend/src/controllers/domainController.js:97 | `www.www.u` normalises to `www.u` and only a second pass gives `u` |
| HeuristicExamples.NormalizeStripsSchemeAndWww | backend/src/controllers/domainController.js:97 | `https://www.` + a clean lower-case name normalises to the name |
| HeuristicExamples.NormalizeSchemeAndWww | backend/src/controllers/domainController.js:97 | `https://www.` + any name normalises to the name in lower case |
| HeuristicExamples.NormalizeExample | backend/src/controllers/domainController.js:97 | `https://www.Example.COM` normalises to `example.com` |
| HeuristicExamples.BrandLoopUnrolled | backend/src/controllers/domainController.js:327-340 | the brand loop is the five brand checks in order: google, facebook, amazon, microsoft, apple |
| HeuristicExamples.AnalyzeWithoutBrand | backend/src/controllers/domainController.js:342-398 | a name firing no brand is suspicious and carries only the four later checks' indicators |
| HeuristicExamples.TldAt | backend/src/controllers/domainController.js:344 | the TLD starts at the last `.` |
| HeuristicExamples.GoogleHomeBrands | backend/src/controllers/domainController.js:331 | `google.com` fires no brand check: the exact `<brand>.com` is exempt |
| HeuristicExamples.BrandHomeIsClean | backend/src/controllers/domainController.js:331 | `google.com` is not flagged: score 0, level low, category suspicious, no indicators |
| HeuristicExamples.SuspiciousTldExample | backend/src/controllers/domainController.js:343-352 | `a.tk` gets exactly one `suspicious_tld` indicator of confidence 60: suspicious, score 60, level high |
| HeuristicExamples.TyposquatExample | backend/src/controllers/domainController.js:330-395 | `google.tk` gets the google typosquatting and the `.tk` indicators, score clamped to 100, critical, phishing |
| AlertModel.TrimField | backend/src/models/Alert.js:7 | the `trim` setter: absent stays absent, a present value is trimmed |
| AlertModel.DomainField | backend/src/models/Alert.js:34-39 | the `trim` and `lowercase` setters of `domain`: absent stays absent |
| AlertModel.NewAlert | backend/src/models/Alert.js:3-87 | a new alert takes severity medium, category other, source manual and status new unless given; title, description, IP and resolution pass through `trim`, the domain through `trim` and `lowercase`; `resolvedAt` and `resolvedBy` are as given (null by default); the creator is kept |
| AlertModel.NewAlertDefaults | backend/src/models/Alert.js:16-49 | an alert given only title, description and creator takes every default, with no domain, IP or resolution fields |
| AlertModel.Violations | backend/src/models/Alert.js:4-84 | no violation exactly when the alert validates; a missing `createdBy` is always named |
| AlertModel.LengthLimits | backend/src/models/Alert.js:4-84 | a title over 200, a description over 1000 or a resolution over 500 characters, or an empty title, fails validation |
| AlertModel.OctetPatternIff | backend/src/models/Alert.js:43 | an octet alternative matches exactly the 1- to 3-digit strings of value at most 255 |
| AlertModel.IPv4Iff | backend/src/models/Alert.js:43 | the IPv4 pattern accepts exactly four `.`-separated parts of 1 to 3 digits, each of value at most 255 |
| AlertModel.IPv4OfOctets | backend/src/models/Alert.js:43 | four octets joined with `.` pass the IPv4 pattern, and splitting the address gives the octets back |
| AlertModel.Age | backend/src/models/Alert.js:96-98 | `age` is the whole number of days with day*age <= elapsed < day*(age+1) |
| AlertModel.AgeUnique | backend/src/models/Alert.js:96-98 | that bracket determines the age uniquely |
| AlertModel.ResolveSetsFourFields | backend/src/models/Alert.js:101-107 | resolving sets status, `resolvedAt`, `resolvedBy` and `resolution`, and no other field |
| AlertModel.Patched | backend/src/controllers/alertController.js:145 | `Object.assign` of a body: each given field replaces the stored one through its setter (`trim` on the texts, `trim` and `lowercase` on the domain) and each absent one is kept; creation time, source, `resolvedAt` and `resolvedBy` are kept; an empty body changes nothing |
| AlertModel.Alert.FromDoc | backend/src/controllers/alertController.js:127 | the loaded alert holds exactly the stored fields |
| AlertModel.Alert.Resolve | backend/src/models/Alert.js:101-107 | the alert after `resolve` is resolved, at `now`, by the given user, with the trimmed text, and nothing else changes; the closing `save()` succeeds exactly when the resolved alert validates |
| AlertModel.Alert.Assign | backend/src/controllers/alertController.js:145 | the alert after `Object.assign` is `Patched` of the old one |
| AlertController.Authorize | backend/src/controllers/alertController.js:137 | throws exactly when there is no creator; permitted exactly for the creator or an admin |
| AlertController.CreatorOrAdmin | backend/src/controllers/alertController.js:137-142 | on an alert with a creator, the creator and any admin are permitted and any other user is refused |
| AlertController.CreateAlert | backend/src/controllers/alertController.js:97-122 | `createdBy` is the requester whatever the body says, and the body's other fields, the resolution fields among them, pass through the setters; saved exactly when valid and the id is free; otherwise 500 with nothing stored |
| AlertController.CreateChecksBodyResolution | backend/src/controllers/alertController.js:99-104 | a create body whose resolution is over 500 characters after trimming fails validation, so the create answers 500; the body cannot name the creator |
| AlertController.UpdateAlert | backend/src/controllers/alertController.js:125-165 | 404 when missing, 403 when refused, 500 when the test throws; success exactly when permitted and the patched alert validates, then stored; failures change nothing |
| AlertController.ResolveAlert | backend/src/controllers/alertController.js:168-207 | 404 when missing, 400 when already resolved, both with nothing changed; otherwise resolved by the requester at `now` when it validates; no ownership needed |
| AlertController.DeleteAlert | backend/src/controllers/alertController.js:210-242 | 404 when missing, 403 when refused, 500 when the test throws; success exactly when permitted, and then the alert is removed; failures change nothing |
| DomainController.StoreUnderOwnName | backend/src/models/SuspiciousDomain.js:7 | storing a document under its own name keeps every document under its own name |
| DomainController.CheckDomain | backend/src/controllers/domainController.js:85-140 | 400 for a missing or empty name; a stored name is answered from the store (suspicious, stored score, level, category); any other name gets the scorer's result |
| DomainController.ReportsAgreeWithSources | backend/src/controllers/domainController.js:100-133 | the stored answer keeps the stored score and category and is suspicious; the heuristic answer is the scorer's, in 0..100 and bucketed |
| DomainController.SeverityFor | backend/src/controllers/domainController.js:178-179 | critical and high carry over, every lower level becomes medium, never low |
| DomainController.AddedAlert | backend/src/controllers/domainController.js:175-185 | the alert for a new domain is a `suspicious_domain` manual alert, status new, with the mapped severity and the requester as creator |
| DomainController.ListedDoc | backend/src/controllers/domainController.js:162-171 | the new document: the stored name, source manual, category suspicious and no indicators unless given, active and consistently scored |
| DomainController.AddOutcomes | backend/src/controllers/domainController.js:152-199 | an existing name gives 400 with nothing created; success exactly when the name is new, the document and alert validate and the id is free, and then both are stored; a failure never stores the alert, and a failure that stores anything stores just the document and answers 500; keying by name is kept |
| DomainController.AddSuspiciousDomain | backend/src/controllers/domainController.js:144-201 | a missing name gives 500 with nothing changed; otherwise the outcome of adding the normalised name |
| DomainController.AddNormalizedDomain | backend/src/controllers/domainController.js:151-193 | the handler after normalisation returns the add outcome |
| DomainController.SaveListed | backend/src/controllers/domainController.js:172-193 | saving the document and then the alert gives the add outcome for a name not yet stored |
| DomainController.BuildListedDoc | backend/src/controllers/domainController.js:162-171 | the document built and rescored through the class is the listed document |
| DomainController.SaveAlert | backend/src/controllers/domainController.js:187 | the alert is saved exactly when it validates and its id is free |
| DomainController.UpdateDomain | backend/src/controllers/domainController.js:204-232 | 404 when missing; success exactly when the patched, rescored document validates, then stored and consistent; failures change nothing; keying by name is kept |
| DomainController.DeleteDomain | backend/src/controllers/domainController.js:235-261 | 404 when missing with nothing changed; success exactly when the stored document validates, and then a soft delete: only `isActive` becomes false; failures change nothing; keying by name is kept |
| OsintFeeds.Take | backend/src/services/osintFetcher.js:164 | `slice(0, n)`: a prefix of at most n elements, the whole sequence when it is short enough |
| OsintFeeds.Span | backend/src/services/osintFetcher.js:349 | the longest prefix without a stop character |
| OsintFeeds.ParsedHost | backend/src/services/osintFetcher.js:345 | a parsed host is non-empty and in lower case |
| OsintFeeds.FirstMatchPosition | backend/src/services/osintFetcher.js:349 | the fallback regex can only start at the first character that is neither `/` nor white space |
| OsintFeeds.RegexCapture | backend/src/services/osintFetcher.js:349 | no match exactly when every character is `/` or white space; otherwise a non-empty run without them found in the URL |
| OsintFeeds.ExtractDomain | backend/src/services/osintFetcher.js:343-352 | `extractDomain` is total and always yields lower case |
| OsintFeeds.ExtractHost | backend/src/services/osintFetcher.js:343-346 | `http://host/...` yields the host without a leading `www.` |
| OsintFeeds.ExtractBareHost | backend/src/services/osintFetcher.js:345 | a host given without a scheme gets `http://` put in front and yields the same |
| OsintFeeds.ParsedHostOf | backend/src/services/osintFetcher.js:345 | the URL parser finds the host of `http://host` followed by a path, query or fragment |
| OsintFeeds.KeepLines | backend/src/services/osintFetcher.js:204 | the kept lines are exactly the non-blank lines not starting with `#` |
| OsintFeeds.PhishTankAction | backend/src/services/osintFetcher.js:165-191 | an entry counts exactly when it has a URL and `verified` is `yes`; then phishing, confidence 95, a high alert |
| OsintFeeds.AbuseChAction | backend/src/services/osintFetcher.js:207-235 | a line counts exactly when it has two tab-separated columns; the second is the URL; malware, confidence 90, a high alert |
| OsintFeeds.VirusTotalAction | backend/src/services/osintFetcher.js:249-276 | an entry counts exactly when it has a domain; confidence 80 with detections, else 30; an alert exactly with detections, high above 5, else medium |
| OsintFeeds.PhishTankActions | backend/src/services/osintFetcher.js:164-165 | one PhishTank decision per entry, in order |
| OsintFeeds.AbuseChActions | backend/src/services/osintFetcher.js:206-208 | one Abuse.ch decision per line, in order |
| OsintFeeds.VirusTotalActions | backend/src/services/osintFetcher.js:248-249 | one VirusTotal decision per entry, in order |
| OsintFeeds.Actions | backend/src/services/osintFetcher.js:159-248 | at most 10 items (5 for VirusTotal); a payload of the wrong shape gives none |
| OsintFeeds.Upsert | backend/src/services/osintFetcher.js:284-312 | updated for a stored name, added for a new one; a failed save (`added:false`) writes nothing; otherwise the upserted document is stored under the name |
| OsintFeeds.UpsertedDocShape | backend/src/services/osintFetcher.js:286-306 | a stored name keeps its indicators with the new ones appended and `lastSeen` set; a new name is an osint document with the given indicators; both consistently scored |
| OsintFeeds.AlertAttempt | backend/src/services/osintFetcher.js:315-340 | suppressed exactly when an alert with the same domain and title exists from the last 24 hours |
| OsintFeeds.SystemAlertsNeverSave | backend/src/services/osintFetcher.js:328-338 | a system alert never saves: suppressed, or refused naming `createdBy` |
| OsintFeeds.FoldCounts | backend/src/services/osintFetcher.js:177-191 | across a processor loop, `fetched` counts the qualifying items, `domainsAdded` grows no faster, no alert is created, no domain is removed |
| OsintFeeds.ProcessBounds | backend/src/services/osintFetcher.js:159-281 | `fetched` counts the qualifying items and is at most 10 (5 for VirusTotal); `domainsAdded` does not exceed it; `alertsCreated` is 0 and the alerts are unchanged; a payload of the wrong shape changes nothing |
| OsintFeeds.PhishTankItems | backend/src/services/osintFetcher.js:164-165 | the i-th PhishTank decision is about entry i, which is among the first 10, and counts exactly when it has a URL and is verified |
| OsintFeeds.AbuseChLines | backend/src/services/osintFetcher.js:204-206 | the i-th Abuse.ch decision is about kept line i, which is among the first 10, non-blank and not a comment |
| OsintFetcher.SelectedData | backend/src/services/osintFetcher.js:107-124 | an enabled source uses the live body, or the fallback when the request fails; a disabled one uses the fallback |
| OsintFetcher.SumCounts | backend/src/services/osintFetcher.js:84-86 | totals over sources that all failed are zero |
| OsintFetcher.Outcomes | backend/src/services/osintFetcher.js:80-91 | one report entry per source |
| OsintFetcher.OutcomesFail | backend/src/services/osintFetcher.js:80-91 | each entry names its source, in order, with that source's error |
| OsintFetcher.OutcomesSumToZero | backend/src/services/osintFetcher.js:84-90 | a cycle in which every source fails totals zero |
| OsintFetcher.RecordStep | backend/src/services/osintFetcher.js:82-90 | recording a source grows the totals by its counts only when it succeeded; a failed source extends the report as `Outcomes` does |
| OsintFetcher.SumCountsSkipsFailures | backend/src/services/osintFetcher.js:84-89 | failing sources contribute nothing to the totals, wherever they stand |
| OsintFetcher.CycleKeepsStores | backend/src/services/osintFetcher.js:80-91 | a cycle leaves the alert collection as it was and removes no domain |
| OsintFetcher.Fetcher.constructor | backend/src/services/osintFetcher.js:9-33 | stopped, no job, never fetched, count 0; PhishTank and VirusTotal enabled by their API keys |
| OsintFetcher.Fetcher.Start | backend/src/services/osintFetcher.js:36-58 | a no-op when running; otherwise running with a job; counters and collections kept |
| OsintFetcher.Fetcher.Stop | backend/src/services/osintFetcher.js:61-68 | always ends not running with no job, so stopping twice is stopping once; counters and collections kept |
| OsintFetcher.Fetcher.GetStatus | backend/src/services/osintFetcher.js:355-366 | reports the running flag, last fetch and count, and each source's key, name and enabled flag in order |
| OsintFetcher.Fetcher.AddSuspiciousDomain | backend/src/services/osintFetcher.js:284-312 | the outcome and new domain map are those of `Upsert`; alerts and schedule unchanged |
| OsintFetcher.Fetcher.BuildUpserted | backend/src/services/osintFetcher.js:288-305 | the document mutated and rescored through the class is the upserted document |
| OsintFetcher.Fetcher.CreateAlert | backend/src/services/osintFetcher.js:315-340 | the outcome and the alert collection are those of the de-duplicated attempt; domains unchanged |
| OsintFetcher.Fetcher.Apply | backend/src/services/osintFetcher.js:164-192 | one loop iteration: the counters and collections after it are one `Step` of the fold |
| OsintFetcher.Fetcher.ProcessPhishTank | backend/src/services/osintFetcher.js:159-196 | counts and collections after the loop are the fold over the PhishTank decisions |
| OsintFetcher.Fetcher.ProcessAbuseCh | backend/src/services/osintFetcher.js:199-240 | counts and collections after the loop are the fold over the Abuse.ch decisions |
| OsintFetcher.Fetcher.ProcessVirusTotal | backend/src/services/osintFetcher.js:243-281 | counts and collections after the loop are the fold over the VirusTotal decisions |
| OsintFetcher.Fetcher.FetchFromSource | backend/src/services/osintFetcher.js:101-144 | the selected data is processed and its writes kept, then the source fails with the constant-assignment error |
| OsintFetcher.Fetcher.RunSource | backend/src/services/osintFetcher.js:81-90 | one loop turn records the source's entry and grows the totals by successful counts only |
| OsintFetcher.Fetcher.FetchOSINTData | backend/src/services/osintFetcher.js:71-98 | `fetchCount` grows by exactly 1 and `lastFetch` is now; every source is processed in order and reported with its error; totals are the sum over non-failing sources; running state kept |
| AuthContext.Reduce | frontend/src/context/AuthContext.jsx:23-42 | an unknown action returns the state unchanged |
| AuthContext.LoginStartKeepsUser | frontend/src/context/AuthContext.jsx:25-26 | `LOGIN_START` sets loading, clears the error, keeps user and authentication |
| AuthContext.LoginSuccessSignsIn | frontend/src/context/AuthContext.jsx:27-28 | `LOGIN_SUCCESS` gives the payload's user, which may be missing, and claims authentication, not loading, no error |
| AuthContext.LoginFailureSignsOut | frontend/src/context/AuthContext.jsx:29-30 | `LOGIN_FAILURE` gives no user, not authenticated, not loading, error set to the payload |
| AuthContext.LogoutSignsOut | frontend/src/context/AuthContext.jsx:31-32 | `LOGOUT` gives no user, not authenticated, not loading, no error |
| AuthContext.OwnFieldOnly | frontend/src/context/AuthContext.jsx:33-38 | `SET_LOADING` and `CLEAR_ERROR` each change only their own field |
| AuthContext.SetUserAuthenticates | frontend/src/context/AuthContext.jsx:35-36 | `SET_USER` is authenticated exactly for a non-null payload, and clears loading |
| AuthContext.ReduceKeepsConsistent | frontend/src/context/AuthContext.jsx:23-42 | from a consistent state an action keeps "authenticated exactly when a user is held" exactly when it is not a `LOGIN_SUCCESS` without a user |
| AuthContext.ReduceAllConsistent | frontend/src/context/AuthContext.jsx:23-47 | a sequence of actions with no userless `LOGIN_SUCCESS` keeps that invariant; a sequence ending in one breaks it |
| AuthContext.InitialConsistent | frontend/src/context/AuthContext.jsx:6-11 | the initial state satisfies it and is loading |
| AuthContext.MergeUser | frontend/src/context/AuthContext.jsx:123 | the spread merge has both key sets; the new data wins on shared keys; the old values stay elsewhere |
| AuthContext.UpdateUser | frontend/src/context/AuthContext.jsx:122-126 | `updateUser` always ends authenticated with the merged user, not loading, error kept |
| AuthContext.ErrorMessage | frontend/src/context/AuthContext.jsx:82 | the server's message when non-empty, otherwise the fallback |
| AuthContext.SignIn | frontend/src/context/AuthContext.jsx:71-103 | login and register end with the response's user (possibly missing) and authenticated, or signed out with the error text |
| AuthContext.SignInSettles | frontend/src/context/AuthContext.jsx:71-103 | a sign-in never ends loading and is authenticated exactly on success; it ends consistent exactly unless a successful response carried no user |
| AuthContext.CheckAuthStatus | frontend/src/context/AuthContext.jsx:50-67 | the start-up check always stops loading; without stored credentials nothing else changes; a failed profile request signs out |
| AuthContext.StartupSettles | frontend/src/context/AuthContext.jsx:49-69 | from the initial state the check ends consistent, with the profile's user on success and none without credentials |

## Left out

- The WHATWG URL parser is a foreign library. `ParsedHost` follows a simplified rule: an `http` or `https` scheme, the authority up to `/ ? # \`, no user information or port, and failure on an empty host or white space.
- ExtractDomain: it therefore does not capture the parser's percent-decoding, IDNA, IP-address normalisation or other schemes.
- Case mapping is ASCII only. Strings are sequences of characters, not UTF-16 code units, so lengths of astral characters differ.
- ReputationPercentage: `Math.round` on a floating-point quotient is modelled by exact half-up rounding, so it does not capture floating-point error.
- Dates are integer milliseconds, and each operation receives one clock reading. The fractional days of `updateRiskScore` and `age` are compared exactly.
- MongoDB is not part of this model: queries, `$regex` search, `aggregate` statistics, `populate` and ObjectIds. A collection is a map or a sequence. Domain handlers address a document by its stored name instead of its id, and the unique index is the map's keying.
- The list, single-get and statistics handlers of both controllers (`getSuspiciousDomains`, `getDomain`, `getDomainStats`, `getAlerts`, `getAlert`, `getAlertStats`) are left out: they are queries. Only their pagination arithmetic is modelled.
- Documents omit `tags`, `notes`, `evidence`, `assignedTo`, `ipAddresses`, the other WHOIS and SSL fields, and `updatedAt`; no contract reads them.
- DomainModel.Patched and AlertModel.Patched: a body may overwrite only the fields listed in the patch types. A body that renames a domain, or that rewrites an alert's `source`, `resolvedAt`, `resolvedBy` or `createdAt`, is not modelled. A body field set to `null` is not modelled either: a patch field is present with a value or absent.
- Saves: `updateRiskScore` ends in `save()`, and the domain handlers and the feed upsert that call it save once more. Both saves validate the same document, so the model lets the outcome follow the caller's save and reports the inner one through the method's result. `resolve` is saved only by its own `save()`, whose result `ResolveAlert` uses.
- `parseInt` of the query strings is not modelled: `page` and `limit` arrive as integers.
- Feed fields are plain values: an absent string is `""` and an absent `detections` is 0. A non-string `url` or `domain` in a feed is not modelled.
- `node-cron`, `axios`, `fs.readFile` and `JSON.parse` are I/O. The live body, its failure and the parsed fallback file are the `Feeds` parameter. The cron expression and console logging are not modelled; `getSources` just returns the configuration.
- Concurrent cycles and overlapping requests are not modelled: every operation is sequential.
- A database error during a save other than validation is not modelled. The duplicate-id failure of a new alert is.
- The provider in AuthContext.jsx does not model `localStorage`, toasts, the API client or `demoLogin`. A user object is modelled as a map from property name to a string value.
