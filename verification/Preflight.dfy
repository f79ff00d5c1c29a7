/** What the target preflight asks, what it can be answered, and when each of its checks holds. */
module PreflightPolicy {
  import opened Wrappers

  /******* The target's answers *******/

  type Positive = n: nat | n >= 1 witness 1

  datatype TransportFailure =
    | SshExecutableMissing | SshClientUnsupported | ConnectionTimeout | HostKeyVerificationFailed
    | AuthenticationFailed | ConnectionFailed | RemotePrivilegeRefused | HelperNotFound
    | HelperProtocolInvalid | OutputLimitExceeded | TransportCancelled

  datatype SiteFailure = SiteTimeout | SiteConnectionFailed | RedirectRefused | ResponseTooLarge

  datatype RefusalCode =
    | HelperVersionUnsupported | TargetIdMismatch | ProductionRefused | EnvironmentUnknown | RoleMismatch
    | ApacheServiceMismatch

  datatype Identity = Identity(helperMajor: nat, target: nat, environment: string, role: string, service: string)
  datatype ApacheFacts = ApacheFacts(service: string, installed: bool, active: bool)
  datatype ResourceFacts = ResourceFacts(rootFree: nat, memoryAvailable: nat, cpus: Positive, load: real)

  datatype Response =
    | VersionResponse(helperMajor: nat)
    | IdentityResponse(identity: Identity)
    | PreflightResponse(identity: Identity, apache: ApacheFacts, resources: ResourceFacts)
    | OtherResponse

  // A call may answer, fail with a classified error, or raise something else.
  datatype Answer<+T, +E> = Answered(value: T) | Failed(error: E) | Broke

  datatype SiteSeen = SiteSeen(status: nat, contentMatched: bool)

  datatype Answers = Answers(
    client: Answer<string, TransportFailure>, files: Answer<(), string>,
    version: Answer<Response, TransportFailure>, identity: Answer<Response, TransportFailure>,
    preflight: Answer<Response, TransportFailure>, site: Answer<SiteSeen, SiteFailure>)

  datatype TargetConfig = TargetConfig(
    target: nat, service: string, minRootFreeMib: int, minMemoryMib: int, maxLoadPerCpu: real, expectedStatus: nat)

  /******* Checks and reports *******/

  datatype CheckName =
    | Configuration | OpensshClient | SshFiles | HelperVersion | TargetIdentity | HelperPreflight
    | Apache | RootSpace | Memory | Load | Website

  const CHECK_NAMES := [Configuration, OpensshClient, SshFiles, HelperVersion, TargetIdentity, HelperPreflight,
                        Apache, RootSpace, Memory, Load, Website]

  datatype Status = Pass | Fail | Skip
  datatype Check = Check(name: CheckName, status: Status, durationMs: int)

  datatype Aggregate = AllPassed | Refused | Errored

  datatype Category =
    | Transport(failure: TransportFailure) | AccessFile(issue: string) | Refusal(code: RefusalCode)
    | ApacheUnhealthy | RootSpaceReserveLow | MemoryReserveLow | LoadAboveLimit
    | Site(failure': SiteFailure) | WebsiteStatusMismatch | WebsiteContentMismatch

  datatype Report =
    Report(outcome: Aggregate, startedAt: int, completedAt: int, checks: seq<Check>, category: Option<Category>)

  // The consistency rules every report is validated against.
  predicate ValidReport(r: Report) {
    && r.startedAt <= r.completedAt
    && 1 <= |r.checks| <= 32
    && (forall c <- r.checks :: 0 <= c.durationMs <= 60_000)
    && (r.outcome == AllPassed ==> r.category.None? && forall c <- r.checks :: c.status == Pass)
    && (r.outcome != AllPassed ==> r.category.Some?)
  }

  // How a preflight ends: with a report, or with an exception.
  datatype Ran = Reported(report: Report) | Escaped

  datatype Call = CheckClient | ReadAccessFiles | AskVersion | AskIdentity | AskPreflight | ObserveSite

  /******* The verdict on each check, on its own *******/

  datatype Verdict = Holds | Violated(outcome: Aggregate, category: Category) | Escapes

  function OfTransport(failure: TransportFailure): Verdict {
    Violated(if failure == RemotePrivilegeRefused then Refused else Errored, Transport(failure))
  }

  // The first mismatch with the one development web target that is expected.
  function Mismatch(cfg: TargetConfig, i: Identity): Option<RefusalCode> {
    if i.helperMajor != 0 then Some(HelperVersionUnsupported)
    else if i.environment == "production" then Some(ProductionRefused)
    else if i.environment != "development" then Some(EnvironmentUnknown)
    else if i.role != "web" then Some(RoleMismatch)
    else if i.target != cfg.target then Some(TargetIdMismatch)
    else if i.service != cfg.service then Some(ApacheServiceMismatch)
    else None
  }

  predicate Expected(cfg: TargetConfig, i: Identity) {
    i == Identity(0, cfg.target, "development", "web", cfg.service)
  }

  lemma MismatchExactlyUnlessExpected(cfg: TargetConfig, i: Identity)
    ensures Mismatch(cfg, i).None? <==> Expected(cfg, i)
    ensures i.environment == "production" && i.helperMajor == 0 ==> Mismatch(cfg, i) == Some(ProductionRefused)
    ensures i.helperMajor != 0 ==> Mismatch(cfg, i) == Some(HelperVersionUnsupported)
    ensures Mismatch(cfg, i) in {Some(RoleMismatch), Some(TargetIdMismatch), Some(ApacheServiceMismatch)} ==>
              i.helperMajor == 0 && i.environment == "development"
    ensures Mismatch(cfg, i) in {Some(TargetIdMismatch), Some(ApacheServiceMismatch)} ==> i.role == "web"
    ensures Mismatch(cfg, i) == Some(ApacheServiceMismatch) ==> i.target == cfg.target
  {
  }

  function Unexpected(): Verdict { Violated(Errored, Transport(HelperProtocolInvalid)) }

  function OfIdentity(cfg: TargetConfig, i: Identity): Verdict {
    var code := Mismatch(cfg, i);
    if code.Some? then Violated(Refused, Refusal(code.value)) else Holds
  }

  function Judge(name: CheckName, cfg: TargetConfig, a: Answers): Verdict {
    match name
    case Configuration => Holds
    case OpensshClient =>
      (match a.client
       case Answered(_) => Holds
       case Failed(failure) => Violated(Errored, Transport(failure))
       case Broke => Escapes)
    case SshFiles =>
      (match a.files
       case Answered(_) => Holds
       case Failed(issue) => Violated(Errored, AccessFile(issue))
       case Broke => Escapes)
    case HelperVersion =>
      (match a.version
       case Answered(VersionResponse(major)) => if major == 0 then Holds else Violated(Refused, Refusal(HelperVersionUnsupported))
       case Answered(_) => Unexpected()
       case Failed(failure) => OfTransport(failure)
       case Broke => Escapes)
    case TargetIdentity =>
      (match a.identity
       case Answered(IdentityResponse(i)) => OfIdentity(cfg, i)
       case Answered(_) => Unexpected()
       case Failed(failure) => OfTransport(failure)
       case Broke => Escapes)
    case HelperPreflight =>
      (match a.preflight
       case Answered(PreflightResponse(i, _, _)) => OfIdentity(cfg, i)
       case Answered(_) => Unexpected()
       case Failed(failure) => OfTransport(failure)
       case Broke => Escapes)
    case Website =>
      (match a.site
       case Answered(seen) =>
         if seen.status != cfg.expectedStatus then Violated(Refused, WebsiteStatusMismatch)
         else if !seen.contentMatched then Violated(Refused, WebsiteContentMismatch) else Holds
       case Failed(failure) => Violated(Refused, Site(failure))
       case Broke => Escapes)
    case _ =>
      // Judged on the facts the helper preflight reported.
      (match a.preflight
       case Answered(PreflightResponse(_, apache, resources)) => JudgeFacts(name, cfg, apache, resources)
       case _ => Holds)
  }

  function JudgeFacts(name: CheckName, cfg: TargetConfig, apache: ApacheFacts, r: ResourceFacts): Verdict {
    match name
    case Apache =>
      if apache.service == cfg.service && apache.installed && apache.active then Holds else Violated(Refused, ApacheUnhealthy)
    case RootSpace =>
      if r.rootFree >= cfg.minRootFreeMib * 1_048_576 then Holds else Violated(Refused, RootSpaceReserveLow)
    case Memory =>
      if r.memoryAvailable >= cfg.minMemoryMib * 1_048_576 then Holds else Violated(Refused, MemoryReserveLow)
    case Load =>
      if r.load <= cfg.maxLoadPerCpu * (r.cpus as real) then Holds else Violated(Refused, LoadAboveLimit)
    case _ => Holds
  }

  // The first check that does not hold; 11 when all do.
  function Stop(cfg: TargetConfig, a: Answers, from: nat): (k: nat)
    requires from <= 11
    ensures from <= k <= 11
    ensures forall i :: from <= i < k ==> Judge(CHECK_NAMES[i], cfg, a) == Holds
    ensures k < 11 ==> Judge(CHECK_NAMES[k], cfg, a) != Holds
    decreases 11 - from
  {
    if from == 11 || Judge(CHECK_NAMES[from], cfg, a) != Holds then from else Stop(cfg, a, from + 1)
  }

  // The calls that belong to the checks up to and including k.
  function CallsThrough(k: nat): seq<Call> {
    if k == 0 then []
    else if k == 1 then [CheckClient]
    else if k == 2 then [CheckClient, ReadAccessFiles]
    else if k == 3 then [CheckClient, ReadAccessFiles, AskVersion]
    else if k == 4 then [CheckClient, ReadAccessFiles, AskVersion, AskIdentity]
    else if k < 10 then [CheckClient, ReadAccessFiles, AskVersion, AskIdentity, AskPreflight]
    else [CheckClient, ReadAccessFiles, AskVersion, AskIdentity, AskPreflight, ObserveSite]
  }

  /******* The shape of a report *******/

  // Every check once and in order: k passed, then one failed, then the rest skipped.
  ghost predicate Shaped(checks: seq<Check>, k: nat) {
    && |checks| == |CHECK_NAMES|
    && forall i :: 0 <= i < |checks| ==>
         && checks[i].name == CHECK_NAMES[i]
         && checks[i].status == (if i < k then Pass else if i == k then Fail else Skip)
         && 0 <= checks[i].durationMs <= 60_000
         && (checks[i].status == Skip ==> checks[i].durationMs == 0)
  }

  ghost predicate Conforms(ran: Ran, cfg: TargetConfig, a: Answers, startedAt: int, completedAt: int) {
    var k := Stop(cfg, a, 0);
    if (k < 11 && Judge(CHECK_NAMES[k], cfg, a) == Escapes) || completedAt < startedAt then ran == Escaped
    else
      && ran.Reported? && Shaped(ran.report.checks, k)
      && ran.report.startedAt == startedAt && ran.report.completedAt == completedAt
      && if k == 11 then ran.report.outcome == AllPassed && ran.report.category == None
         else
           var verdict := Judge(CHECK_NAMES[k], cfg, a);
           ran.report.outcome == verdict.outcome && ran.report.category == Some(verdict.category)
  }

  predicate Satisfied(cfg: TargetConfig, a: Answers) {
    && a.client.Answered? && a.files.Answered?
    && a.version == Answered(VersionResponse(0))
    && a.identity.Answered? && a.identity.value.IdentityResponse? && Expected(cfg, a.identity.value.identity)
    && a.preflight.Answered? && a.preflight.value.PreflightResponse? && Expected(cfg, a.preflight.value.identity)
    && (var facts := a.preflight.value;
        && facts.apache == ApacheFacts(cfg.service, true, true)
        && facts.resources.rootFree >= cfg.minRootFreeMib * 1_048_576
        && facts.resources.memoryAvailable >= cfg.minMemoryMib * 1_048_576
        && facts.resources.load <= cfg.maxLoadPerCpu * (facts.resources.cpus as real))
    && a.site == Answered(SiteSeen(cfg.expectedStatus, true))
  }

  lemma StopsNowhereExactlyWhenSatisfied(cfg: TargetConfig, a: Answers)
    ensures Stop(cfg, a, 0) == 11 <==> Satisfied(cfg, a)
  {
    if Stop(cfg, a, 0) == 11 {
      assert forall i :: 0 <= i < 11 ==> Judge(CHECK_NAMES[i], cfg, a) == Holds;
      AllHold(cfg, a);
    } else {
      var k := Stop(cfg, a, 0);
      if Satisfied(cfg, a) { SatisfiedHolds(cfg, a, CHECK_NAMES[k]); }
    }
  }

  lemma AllHold(cfg: TargetConfig, a: Answers)
    requires forall i :: 0 <= i < 11 ==> Judge(CHECK_NAMES[i], cfg, a) == Holds
    ensures Satisfied(cfg, a)
  {
    assert Judge(CHECK_NAMES[1], cfg, a) == Holds && Judge(CHECK_NAMES[2], cfg, a) == Holds;
    assert Judge(CHECK_NAMES[3], cfg, a) == Holds && Judge(CHECK_NAMES[4], cfg, a) == Holds;
    assert Judge(CHECK_NAMES[5], cfg, a) == Holds && Judge(CHECK_NAMES[6], cfg, a) == Holds;
    assert Judge(CHECK_NAMES[7], cfg, a) == Holds && Judge(CHECK_NAMES[8], cfg, a) == Holds;
    assert Judge(CHECK_NAMES[9], cfg, a) == Holds && Judge(CHECK_NAMES[10], cfg, a) == Holds;
    MismatchExactlyUnlessExpected(cfg, a.identity.value.identity);
    MismatchExactlyUnlessExpected(cfg, a.preflight.value.identity);
  }

  lemma SatisfiedHolds(cfg: TargetConfig, a: Answers, name: CheckName)
    requires Satisfied(cfg, a)
    ensures Judge(name, cfg, a) == Holds
  {
  }

  // The gate opens exactly when the whole policy is satisfied.
  lemma PassExactlyWhenSatisfied(ran: Ran, cfg: TargetConfig, a: Answers, startedAt: int, completedAt: int)
    requires Conforms(ran, cfg, a, startedAt, completedAt)
    ensures ran.Reported? && ran.report.outcome == AllPassed <==> startedAt <= completedAt && Satisfied(cfg, a)
  {
    StopsNowhereExactlyWhenSatisfied(cfg, a);
    var k := Stop(cfg, a, 0);
    if k < 11 && ran.Reported? { ViolationsAreNotPasses(CHECK_NAMES[k], cfg, a); }
  }

  lemma ViolationsAreNotPasses(name: CheckName, cfg: TargetConfig, a: Answers)
    requires Judge(name, cfg, a).Violated?
    ensures Judge(name, cfg, a).outcome != AllPassed
  {
  }

  // Every report that is returned satisfies the report rules, and its category is absent exactly
  // when everything passed.
  lemma ReportsAreValid(ran: Ran, cfg: TargetConfig, a: Answers, startedAt: int, completedAt: int)
    requires Conforms(ran, cfg, a, startedAt, completedAt) && ran.Reported?
    ensures ValidReport(ran.report)
    ensures ran.report.category.None? <==> ran.report.outcome == AllPassed
  {
    var k := Stop(cfg, a, 0);
    hide Judge, Stop, Shaped;
    OutcomeNamesCategory(ran, cfg, a, startedAt, completedAt);
    ShapedDurations(ran.report.checks, k);
    hide Conforms;
  }

  lemma OutcomeNamesCategory(ran: Ran, cfg: TargetConfig, a: Answers, startedAt: int, completedAt: int)
    requires Conforms(ran, cfg, a, startedAt, completedAt) && ran.Reported?
    ensures ran.report.category.None? <==> ran.report.outcome == AllPassed
    ensures ran.report.outcome == AllPassed <==> Stop(cfg, a, 0) == 11
    ensures Shaped(ran.report.checks, Stop(cfg, a, 0)) && ran.report.startedAt <= ran.report.completedAt
  {
    var k := Stop(cfg, a, 0);
    hide Judge, Stop, Shaped;
    if k < 11 { ViolationsAreNotPasses(CHECK_NAMES[k], cfg, a); }
  }

  lemma ShapedDurations(items: seq<Check>, k: nat)
    requires Shaped(items, k)
    ensures |items| == 11 && forall c <- items :: 0 <= c.durationMs <= 60_000
    ensures k == 11 ==> forall c <- items :: c.status == Pass
  {
  }

  function Passes(checks: seq<Check>): nat {
    if checks == [] then 0
    else Passes(checks[..|checks| - 1]) + if checks[|checks| - 1].status == Pass then 1 else 0
  }

  // A report tells by itself how far the preflight got, and so which calls were made.
  lemma {:induction false} ReportTellsWhereItStopped(checks: seq<Check>, k: nat)
    requires Shaped(checks, k) && k <= 11
    ensures Passes(checks) == k
  {
    PassesOfPrefix(checks, k, 11);
    assert checks[..11] == checks;
  }

  lemma {:induction false} PassesOfPrefix(checks: seq<Check>, k: nat, n: nat)
    requires Shaped(checks, k) && n <= 11
    ensures Passes(checks[..n]) == if n < k then n else k
  {
    if n > 0 {
      PassesOfPrefix(checks, k, n - 1);
      assert checks[..n][..n - 1] == checks[..n - 1];
    }
  }

  // Only a check that reaches the target or the local files can end in an error; everything the
  // target's own answers rule out is a refusal.
  lemma ErrorsAreTechnical(cfg: TargetConfig, a: Answers, name: CheckName)
    ensures var v := Judge(name, cfg, a);
            v.Violated? && v.outcome == Errored <==>
              || (name == OpensshClient && a.client.Failed?)
              || (name == SshFiles && a.files.Failed?)
              || (name == HelperVersion && Technical(a.version) && (a.version.Answered? ==> !a.version.value.VersionResponse?))
              || (name == TargetIdentity && Technical(a.identity) && (a.identity.Answered? ==> !a.identity.value.IdentityResponse?))
              || (name == HelperPreflight && Technical(a.preflight) && (a.preflight.Answered? ==> !a.preflight.value.PreflightResponse?))
  {
  }

  predicate Technical(answer: Answer<Response, TransportFailure>) {
    answer.Answered? || (answer.Failed? && answer.error != RemotePrivilegeRefused)
  }

  /******* One fault at a time *******/

  // The preflight ends at check k with this verdict.
  predicate EndsAt(cfg: TargetConfig, a: Answers, k: nat, outcome: Aggregate, category: Category) {
    k < 11 && Stop(cfg, a, 0) == k && Judge(CHECK_NAMES[k], cfg, a) == Violated(outcome, category)
  }

  lemma StopsFirst(cfg: TargetConfig, a: Answers, k: nat)
    requires k < 11 && forall i :: 0 <= i < k ==> Judge(CHECK_NAMES[i], cfg, a) == Holds
    requires Judge(CHECK_NAMES[k], cfg, a) != Holds
    ensures Stop(cfg, a, 0) == k
  {
    hide Judge;
  }

  // From answers that satisfy the whole policy, each single fault ends the preflight at its own check
  // and is called by its own name. First the calls that fail.
  lemma FailuresNamed(cfg: TargetConfig, a: Answers, failure: TransportFailure, issue: string)
    requires Satisfied(cfg, a)
    ensures EndsAt(cfg, a.(client := Failed(failure)), 1, Errored, Transport(failure))
    ensures EndsAt(cfg, a.(files := Failed(issue)), 2, Errored, AccessFile(issue))
    ensures var outcome := if failure == RemotePrivilegeRefused then Refused else Errored;
            && EndsAt(cfg, a.(version := Failed(failure)), 3, outcome, Transport(failure))
            && EndsAt(cfg, a.(identity := Failed(failure)), 4, outcome, Transport(failure))
            && EndsAt(cfg, a.(preflight := Failed(failure)), 5, outcome, Transport(failure))
  {
    hide EndsAt, Satisfied;
    LocalFailuresNamed(cfg, a, failure, issue);
    RemoteFailuresNamed(cfg, a, failure);
  }

  lemma LocalFailuresNamed(cfg: TargetConfig, a: Answers, failure: TransportFailure, issue: string)
    requires Satisfied(cfg, a)
    ensures EndsAt(cfg, a.(client := Failed(failure)), 1, Errored, Transport(failure))
    ensures EndsAt(cfg, a.(files := Failed(issue)), 2, Errored, AccessFile(issue))
  {
    StopsFirst(cfg, a.(client := Failed(failure)), 1);
    StopsFirst(cfg, a.(files := Failed(issue)), 2);
    hide Stop;
  }

  lemma RemoteFailuresNamed(cfg: TargetConfig, a: Answers, failure: TransportFailure)
    requires Satisfied(cfg, a)
    ensures var outcome := if failure == RemotePrivilegeRefused then Refused else Errored;
            && EndsAt(cfg, a.(version := Failed(failure)), 3, outcome, Transport(failure))
            && EndsAt(cfg, a.(identity := Failed(failure)), 4, outcome, Transport(failure))
            && EndsAt(cfg, a.(preflight := Failed(failure)), 5, outcome, Transport(failure))
  {
    StopsFirst(cfg, a.(version := Failed(failure)), 3);
    StopsFirst(cfg, a.(identity := Failed(failure)), 4);
    StopsFirst(cfg, a.(preflight := Failed(failure)), 5);
    hide Stop;
  }

  // ... then answers of the wrong kind, and a helper of the wrong version.
  lemma WrongAnswersNamed(cfg: TargetConfig, a: Answers, major: nat)
    requires Satisfied(cfg, a)
    ensures EndsAt(cfg, a.(version := Answered(OtherResponse)), 3, Errored, Transport(HelperProtocolInvalid))
    ensures EndsAt(cfg, a.(identity := Answered(OtherResponse)), 4, Errored, Transport(HelperProtocolInvalid))
    ensures EndsAt(cfg, a.(preflight := Answered(OtherResponse)), 5, Errored, Transport(HelperProtocolInvalid))
    ensures major != 0 ==> EndsAt(cfg, a.(version := Answered(VersionResponse(major))), 3, Refused, Refusal(HelperVersionUnsupported))
  {
    StopsFirst(cfg, a.(version := Answered(OtherResponse)), 3);
    StopsFirst(cfg, a.(identity := Answered(OtherResponse)), 4);
    StopsFirst(cfg, a.(preflight := Answered(OtherResponse)), 5);
    if major != 0 { StopsFirst(cfg, a.(version := Answered(VersionResponse(major))), 3); }
    hide Stop;
  }

  // Not the expected identity, but in one field only.
  predicate OneFieldOff(cfg: TargetConfig, i: Identity, code: RefusalCode) {
    var expected := Identity(0, cfg.target, "development", "web", cfg.service);
    || (i == expected.(helperMajor := i.helperMajor) && i.helperMajor != 0 && code == HelperVersionUnsupported)
    || (i == expected.(environment := "production") && code == ProductionRefused)
    || (i == expected.(environment := i.environment) && i.environment !in {"production", "development"} && code == EnvironmentUnknown)
    || (i == expected.(role := i.role) && i.role != "web" && code == RoleMismatch)
    || (i == expected.(target := i.target) && i.target != cfg.target && code == TargetIdMismatch)
    || (i == expected.(service := i.service) && i.service != cfg.service && code == ApacheServiceMismatch)
  }

  // ... then an identity that differs from the expected one in a single field, at either check.
  lemma IdentitiesNamed(cfg: TargetConfig, a: Answers, i: Identity, code: RefusalCode)
    requires Satisfied(cfg, a) && OneFieldOff(cfg, i, code)
    ensures EndsAt(cfg, a.(identity := Answered(IdentityResponse(i))), 4, Refused, Refusal(code))
    ensures EndsAt(cfg, a.(preflight := Answered(a.preflight.value.(identity := i))), 5, Refused, Refusal(code))
  {
    OneFieldNamed(cfg, i, code);
    hide Mismatch, OneFieldOff;
    StopsFirst(cfg, a.(identity := Answered(IdentityResponse(i))), 4) by { ExpectedFits(cfg, a); }
    StopsFirst(cfg, a.(preflight := Answered(a.preflight.value.(identity := i))), 5) by { ExpectedFits(cfg, a); }
    hide Stop;
  }

  lemma OneFieldNamed(cfg: TargetConfig, i: Identity, code: RefusalCode)
    requires OneFieldOff(cfg, i, code)
    ensures Mismatch(cfg, i) == Some(code)
  {
  }

  lemma ExpectedFits(cfg: TargetConfig, a: Answers)
    requires Satisfied(cfg, a)
    ensures Mismatch(cfg, a.identity.value.identity).None? && Mismatch(cfg, a.preflight.value.identity).None?
  {
  }

  // ... then facts of the target below its reserves.
  lemma ReservesNamed(cfg: TargetConfig, a: Answers, facts: Response)
    requires Satisfied(cfg, a) && facts.PreflightResponse? && facts.identity == a.preflight.value.identity
    ensures facts.resources == a.preflight.value.resources && facts.apache != ApacheFacts(cfg.service, true, true) ==>
              EndsAt(cfg, a.(preflight := Answered(facts)), 6, Refused, ApacheUnhealthy)
    ensures facts == a.preflight.value.(resources := a.preflight.value.resources.(rootFree := facts.resources.rootFree)) ==>
              (facts.resources.rootFree < cfg.minRootFreeMib * 1_048_576 ==>
                 EndsAt(cfg, a.(preflight := Answered(facts)), 7, Refused, RootSpaceReserveLow))
    ensures facts == a.preflight.value.(resources := a.preflight.value.resources.(memoryAvailable := facts.resources.memoryAvailable)) ==>
              (facts.resources.memoryAvailable < cfg.minMemoryMib * 1_048_576 ==>
                 EndsAt(cfg, a.(preflight := Answered(facts)), 8, Refused, MemoryReserveLow))
    ensures facts == a.preflight.value.(resources := a.preflight.value.resources.(load := facts.resources.load)) ==>
              (facts.resources.load > cfg.maxLoadPerCpu * (facts.resources.cpus as real) ==>
                 EndsAt(cfg, a.(preflight := Answered(facts)), 9, Refused, LoadAboveLimit))
  {
    var a' := a.(preflight := Answered(facts));
    var k := Stop(cfg, a', 0);
    assert k < 11 ==> Judge(CHECK_NAMES[k], cfg, a') != Holds;
    hide Stop;
  }

  // ... and last the website.
  lemma WebsiteNamed(cfg: TargetConfig, a: Answers, seen: SiteSeen, failure: SiteFailure)
    requires Satisfied(cfg, a)
    ensures EndsAt(cfg, a.(site := Failed(failure)), 10, Refused, Site(failure))
    ensures seen.status != cfg.expectedStatus ==> EndsAt(cfg, a.(site := Answered(seen)), 10, Refused, WebsiteStatusMismatch)
    ensures seen == SiteSeen(cfg.expectedStatus, false) ==> EndsAt(cfg, a.(site := Answered(seen)), 10, Refused, WebsiteContentMismatch)
  {
    StopsFirst(cfg, a.(site := Failed(failure)), 10);
    if seen != SiteSeen(cfg.expectedStatus, true) { StopsFirst(cfg, a.(site := Answered(seen)), 10); }
    hide Stop;
  }

  // The first check that does not hold got something that is no answer at all.
  predicate BreaksFirst(cfg: TargetConfig, a: Answers) {
    var k := Stop(cfg, a, 0);
    || (k == 1 && a.client.Broke?) || (k == 2 && a.files.Broke?) || (k == 3 && a.version.Broke?)
    || (k == 4 && a.identity.Broke?) || (k == 5 && a.preflight.Broke?) || (k == 10 && a.site.Broke?)
  }

  lemma EscapesExactly(ran: Ran, cfg: TargetConfig, a: Answers, startedAt: int, completedAt: int)
    requires Conforms(ran, cfg, a, startedAt, completedAt)
    ensures ran.Escaped? <==> completedAt < startedAt || BreaksFirst(cfg, a)
  {
    var k := Stop(cfg, a, 0);
    if k < 11 { BreaksAt(cfg, a, k); }
    hide Judge, Stop, Shaped;
  }

  lemma BreaksAt(cfg: TargetConfig, a: Answers, k: nat)
    requires k < 11
    ensures Judge(CHECK_NAMES[k], cfg, a) == Escapes <==>
              || (k == 1 && a.client.Broke?) || (k == 2 && a.files.Broke?) || (k == 3 && a.version.Broke?)
              || (k == 4 && a.identity.Broke?) || (k == 5 && a.preflight.Broke?) || (k == 10 && a.site.Broke?)
  {
  }

  /******* Which calls were made *******/

  function CheckOf(call: Call): CheckName {
    match call
    case CheckClient => OpensshClient
    case ReadAccessFiles => SshFiles
    case AskVersion => HelperVersion
    case AskIdentity => TargetIdentity
    case AskPreflight => HelperPreflight
    case ObserveSite => Website
  }

  // A preflight that stops at check k has made exactly the calls of the checks up to k, each once.
  lemma CallsBelong(k: nat, call: Call)
    requires k <= 11
    ensures call in CallsThrough(k) <==> exists i :: 0 <= i < 11 && i <= k && CHECK_NAMES[i] == CheckOf(call)
    ensures forall i, j :: 0 <= i < j < |CallsThrough(k)| ==> CallsThrough(k)[i] != CallsThrough(k)[j]
  {
    assert CHECK_NAMES[1] == OpensshClient && CHECK_NAMES[2] == SshFiles && CHECK_NAMES[3] == HelperVersion;
    assert CHECK_NAMES[4] == TargetIdentity && CHECK_NAMES[5] == HelperPreflight && CHECK_NAMES[10] == Website;
  }
}

/** The preflight service: eleven checks in order, the first failure ends it. */
module PreflightService {
  import opened Wrappers
  import opened PreflightPolicy
  import Machine

  // The list of results, appended to in place.
  class CheckList {
    var items: seq<Check>

    constructor ()
      ensures items == []
    {
      items := [];
    }

    method Append(check: Check)
      modifies this
      ensures items == old(items) + [check]
    {
      items := items + [check];
    }
  }

  // Rounding half to even.
  function Round(x: real): (n: int)
    ensures -0.5 <= (n as real) - x <= 0.5
    ensures (n as real) - x in {-0.5, 0.5} ==> n % 2 == 0
  {
    var f := x.Floor;
    var d := x - f as real;
    if d < 0.5 then f else if d > 0.5 then f + 1 else if f % 2 == 0 then f else f + 1
  }

  class Service {
    const config: TargetConfig
    const answers: Answers
    const startedAt: int
    const completedAt: int
    var calls: seq<Call>
    var ticks: seq<real>

    constructor (config: TargetConfig, answers: Answers, startedAt: int, completedAt: int, ticks: seq<real>)
      ensures this.config == config && this.answers == answers && this.startedAt == startedAt
      ensures this.completedAt == completedAt && calls == []
    {
      this.config, this.answers, this.startedAt, this.completedAt := config, answers, startedAt, completedAt;
      this.calls, this.ticks := [], ticks;
    }

    method Monotonic() returns (now: real)
      modifies this`ticks
      ensures if old(ticks) == [] then now == 0.0 && ticks == [] else old(ticks) == [now] + ticks
    {
      if ticks == [] { return 0.0; }
      now, ticks := ticks[0], ticks[1..];
    }

    method Duration(started: Option<real>) returns (ms: int)
      modifies this`ticks
      ensures 0 <= ms <= 60_000 && (started.None? ==> ms == 0 && ticks == old(ticks))
      ensures started.Some? ==>
                var elapsed := Round(((if old(ticks) == [] then 0.0 else old(ticks)[0]) - started.value) * 1000.0);
                ms == if elapsed < 0 then 0 else if elapsed > 60_000 then 60_000 else elapsed
    {
      if started.None? { return 0; }
      var now := Monotonic();
      var rounded := Round((now - started.value) * 1000.0);
      ms := if rounded < 0 then 0 else rounded;
      ms := if ms > 60_000 then 60_000 else ms;
    }

    // Exactly the first k checks have passed so far.
    ghost predicate PassedUpTo(checks: CheckList, k: nat)
      reads checks
    {
      && k <= 11 && |checks.items| == k
      && (forall i :: 0 <= i < k ==> checks.items[i].name == CHECK_NAMES[i] && checks.items[i].status == Pass)
      && (forall i :: 0 <= i < k ==> 0 <= checks.items[i].durationMs <= 60_000)
      && (forall i :: 0 <= i < k ==> Judge(CHECK_NAMES[i], config, answers) == Holds)
    }

    method PassCheck(checks: CheckList, name: CheckName, started: Option<real>)
      requires |checks.items| < 11 && PassedUpTo(checks, |checks.items|) && name == CHECK_NAMES[|checks.items|]
      requires Judge(name, config, answers) == Holds
      modifies checks, this`ticks
      ensures PassedUpTo(checks, old(|checks.items|) + 1)
    {
      hide Judge;
      var ms := Duration(started);
      checks.Append(Check(name, Pass, ms));
    }

    // The failed check, then every later one as skipped.
    method Failure(checks: CheckList, name: CheckName, outcome: Aggregate, category: Category, started: Option<real>)
      returns (ran: Ran)
      requires |checks.items| < 11 && PassedUpTo(checks, |checks.items|) && name == CHECK_NAMES[|checks.items|]
      requires Judge(name, config, answers) == Violated(outcome, category)
      modifies checks, this`ticks
      ensures Conforms(ran, config, answers, startedAt, completedAt)
      ensures Stop(config, answers, 0) == old(|checks.items|)
    {
      hide Judge, Stop, Conforms, ValidReport;
      ghost var k, passed := |checks.items|, checks.items;
      var ms := Duration(started);
      checks.Append(Check(name, Fail, ms));
      var current := IndexOf(name);
      NamesDistinct(current, k);
      SkipAfter(checks, current);
      StopsAt(k);
      ran := MakeReport(checks, outcome, Some(category));
      FailureConforms(passed, checks.items, ms, outcome, category);
    }

    method SkipAfter(checks: CheckList, current: nat)
      requires current < 11 && |checks.items| == current + 1
      modifies checks
      ensures |checks.items| == 11 && checks.items[..current + 1] == old(checks.items)
      ensures forall j :: current < j < 11 ==> checks.items[j] == Check(CHECK_NAMES[j], Skip, 0)
    {
      for i := current + 1 to 11
        invariant |checks.items| == i && checks.items[..current + 1] == old(checks.items)
        invariant forall j :: current < j < i ==> checks.items[j] == Check(CHECK_NAMES[j], Skip, 0)
      {
        checks.Append(Check(CHECK_NAMES[i], Skip, 0));
      }
    }

    lemma FailureConforms(passed: seq<Check>, items: seq<Check>, ms: int, outcome: Aggregate, category: Category)
      requires var k := |passed|;
               && k < 11 && |items| == 11 && items[..k + 1] == passed + [Check(CHECK_NAMES[k], Fail, ms)]
               && (forall j :: k < j < 11 ==> items[j] == Check(CHECK_NAMES[j], Skip, 0))
               && (forall i :: 0 <= i < k ==> passed[i].name == CHECK_NAMES[i] && passed[i].status == Pass)
               && (forall i :: 0 <= i < k ==> 0 <= passed[i].durationMs <= 60_000)
               && Stop(config, answers, 0) == k && Judge(CHECK_NAMES[k], config, answers) == Violated(outcome, category)
      requires 0 <= ms <= 60_000
      ensures var report := Report(outcome, startedAt, completedAt, items, Some(category));
              Conforms(if ValidReport(report) then Reported(report) else Escaped, config, answers, startedAt, completedAt)
    {
      var k := |passed|;
      ViolationsAreNotPasses(CHECK_NAMES[k], config, answers);
      hide Judge, Stop;
      assert items[k] == items[..k + 1][k];
      forall i | 0 <= i < k ensures items[i] == passed[i] { assert items[i] == items[..k + 1][i]; }
      assert Shaped(items, k);
      ShapedDurations(items, k);
    }

    static method IndexOf(name: CheckName) returns (index: nat)
      ensures index < 11 && CHECK_NAMES[index] == name
    {
      index := 0;
      while CHECK_NAMES[index] != name
        invariant index < 11 && forall j :: 0 <= j < index ==> CHECK_NAMES[j] != name
        decreases 11 - index
      {
        SomewhereLater(name, index);
        index := index + 1;
      }
    }

    static lemma SomewhereLater(name: CheckName, index: nat)
      requires index < 11 && forall j :: 0 <= j <= index ==> CHECK_NAMES[j] != name
      ensures index < 10
    {
      assert name in CHECK_NAMES;
    }

    static lemma NamesDistinct(i: nat, j: nat)
      requires i < 11 && j < 11 && CHECK_NAMES[i] == CHECK_NAMES[j]
      ensures i == j
    {
    }

    lemma StopsAt(k: nat)
      requires k <= 11 && forall i :: 0 <= i < k ==> Judge(CHECK_NAMES[i], config, answers) == Holds
      requires k < 11 ==> Judge(CHECK_NAMES[k], config, answers) != Holds
      ensures Stop(config, answers, 0) == k
    {
      hide Judge;
    }

    // The report is checked against the report rules; one that breaks them raises.
    method MakeReport(checks: CheckList, outcome: Aggregate, category: Option<Category>) returns (ran: Ran)
      ensures completedAt < startedAt ==> ran == Escaped
      ensures var report := Report(outcome, startedAt, completedAt, checks.items, category);
              ran == if ValidReport(report) then Reported(report) else Escaped
    {
      var report := Report(outcome, startedAt, completedAt, checks.items, category);
      if completedAt < startedAt { return Escaped; }
      if |report.checks| < 1 || |report.checks| > 32 { return Escaped; }
      if exists c <- report.checks :: !(0 <= c.durationMs <= 60_000) { return Escaped; }
      if outcome == AllPassed {
        if category.Some? { return Escaped; }
        if exists c <- report.checks :: c.status != Pass { return Escaped; }
      } else if category.None? {
        return Escaped;
      }
      return Reported(report);
    }

    lemma EscapeConforms(k: nat)
      requires k < 11 && (forall i :: 0 <= i < k ==> Judge(CHECK_NAMES[i], config, answers) == Holds)
      requires Judge(CHECK_NAMES[k], config, answers) == Escapes
      ensures Conforms(Escaped, config, answers, startedAt, completedAt) && Stop(config, answers, 0) == k
    {
      StopsAt(k);
      hide Judge, Stop;
    }

    // What the helper answers to each of the three read-only operations.
    function AnswerTo(call: Call): Answer<Response, TransportFailure> {
      if call == AskVersion then answers.version else if call == AskIdentity then answers.identity else answers.preflight
    }

    // None when the call ended the preflight.
    method RemoteCheck(checks: CheckList, call: Call) returns (response: Option<Response>, ran: Ran)
      requires call in {AskVersion, AskIdentity, AskPreflight}
      requires |checks.items| < 11 && PassedUpTo(checks, |checks.items|) && CheckOf(call) == CHECK_NAMES[|checks.items|]
      modifies this`calls, this`ticks, checks
      ensures calls == old(calls) + [call]
      ensures response.Some? ==> AnswerTo(call) == Answered(response.value) && checks.items == old(checks.items)
      ensures response.None? ==> Conforms(ran, config, answers, startedAt, completedAt)
      ensures response.None? ==> Stop(config, answers, 0) == old(|checks.items|)
    {
      hide Conforms, Stop;
      calls := calls + [call];
      ran := Escaped;
      match AnswerTo(call) {
        case Answered(value) => response := Some(value);
        case Broke =>
          response := None;
          EscapeConforms(|checks.items|);
        case Failed(failure) =>
          response := None;
          var outcome := if failure == RemotePrivilegeRefused then Refused else Errored;
          ran := Failure(checks, CheckOf(call), outcome, Transport(failure), None);
      }
    }

    // The refusal of an identity that is not exactly the expected one.
    static method VerifyTargetIdentity(config: TargetConfig, i: Identity) returns (refused: Option<RefusalCode>)
      ensures refused == Mismatch(config, i)
    {
      if i.helperMajor != 0 { return Some(HelperVersionUnsupported); }
      if i.environment == "production" { return Some(ProductionRefused); }
      if i.environment != "development" { return Some(EnvironmentUnknown); }
      if i.role != "web" { return Some(RoleMismatch); }
      if i.target != config.target { return Some(TargetIdMismatch); }
      if i.service != config.service { return Some(ApacheServiceMismatch); }
      return None;
    }

    /******* The pipeline, in four stretches; each returns the preflight's end, or None to go on *******/

    method RunLocal(checks: CheckList) returns (ended: Option<Ran>)
      requires PassedUpTo(checks, 1)
      modifies this`calls, this`ticks, checks
      ensures ended.None? ==> PassedUpTo(checks, 3) && calls == old(calls) + CallsThrough(2)
      ensures ended.Some? ==> Conforms(ended.value, config, answers, startedAt, completedAt)
      ensures ended.Some? ==> calls == old(calls) + CallsThrough(Stop(config, answers, 0))
    {
      hide Conforms, Stop;
      var started := Monotonic();
      calls := calls + [CheckClient];
      match answers.client {
        case Broke => EscapeConforms(1); return Some(Escaped);
        case Failed(failure) =>
          var ran := Failure(checks, OpensshClient, Errored, Transport(failure), Some(started));
          return Some(ran);
        case Answered(_) => PassCheck(checks, OpensshClient, Some(started));
      }
      started := Monotonic();
      calls := calls + [ReadAccessFiles];
      assert calls == old(calls) + CallsThrough(2);
      match answers.files {
        case Broke => EscapeConforms(2); return Some(Escaped);
        case Failed(issue) =>
          var ran := Failure(checks, SshFiles, Errored, AccessFile(issue), Some(started));
          return Some(ran);
        case Answered(_) => PassCheck(checks, SshFiles, Some(started));
      }
      return None;
    }

    method RunHelperVersion(checks: CheckList) returns (ended: Option<Ran>)
      requires PassedUpTo(checks, 3)
      modifies this`calls, this`ticks, checks
      ensures calls == old(calls) + [AskVersion]
      ensures ended.None? ==> PassedUpTo(checks, 4)
      ensures ended.Some? ==> Conforms(ended.value, config, answers, startedAt, completedAt) && Stop(config, answers, 0) == 3
    {
      hide Conforms, Stop;
      var response, ran := RemoteCheck(checks, AskVersion);
      if response.None? { return Some(ran); }
      if !response.value.VersionResponse? {
        ran := Failure(checks, HelperVersion, Errored, Transport(HelperProtocolInvalid), None);
        return Some(ran);
      }
      if response.value.helperMajor != 0 {
        ran := Failure(checks, HelperVersion, Refused, Refusal(HelperVersionUnsupported), None);
        return Some(ran);
      }
      PassCheck(checks, HelperVersion, None);
      return None;
    }

    method RunIdentity(checks: CheckList) returns (ended: Option<Ran>)
      requires PassedUpTo(checks, 4)
      modifies this`calls, this`ticks, checks
      ensures calls == old(calls) + [AskIdentity]
      ensures ended.None? ==> PassedUpTo(checks, 5)
      ensures ended.Some? ==> Conforms(ended.value, config, answers, startedAt, completedAt) && Stop(config, answers, 0) == 4
    {
      hide Conforms, Stop, Mismatch;
      var response, ran := RemoteCheck(checks, AskIdentity);
      if response.None? { return Some(ran); }
      if !response.value.IdentityResponse? {
        ran := Failure(checks, TargetIdentity, Errored, Transport(HelperProtocolInvalid), None);
        return Some(ran);
      }
      var refused := VerifyTargetIdentity(config, response.value.identity);
      if refused.Some? {
        ran := Failure(checks, TargetIdentity, Refused, Refusal(refused.value), None);
        return Some(ran);
      }
      PassCheck(checks, TargetIdentity, None);
      return None;
    }

    method RunHelperPreflight(checks: CheckList) returns (facts: Option<Response>, ran: Ran)
      requires PassedUpTo(checks, 5)
      modifies this`calls, this`ticks, checks
      ensures calls == old(calls) + [AskPreflight]
      ensures facts.Some? ==> PassedUpTo(checks, 6) && answers.preflight == Answered(facts.value)
      ensures facts.Some? ==> facts.value.PreflightResponse?
      ensures facts.None? ==> Conforms(ran, config, answers, startedAt, completedAt) && Stop(config, answers, 0) == 5
    {
      hide Conforms, Stop, Mismatch;
      facts, ran := RemoteCheck(checks, AskPreflight);
      if facts.None? { return; }
      if !facts.value.PreflightResponse? {
        ran := Failure(checks, HelperPreflight, Errored, Transport(HelperProtocolInvalid), None);
        return None, ran;
      }
      var refused := VerifyTargetIdentity(config, facts.value.identity);
      if refused.Some? {
        ran := Failure(checks, HelperPreflight, Refused, Refusal(refused.value), None);
        return None, ran;
      }
      PassCheck(checks, HelperPreflight, None);
    }

    // The four checks on the facts already reported make no call at all.
    method RunFacts(checks: CheckList, apache: ApacheFacts, resources: ResourceFacts) returns (ended: Option<Ran>)
      requires PassedUpTo(checks, 6)
      requires answers.preflight.Answered? && answers.preflight.value.PreflightResponse?
      requires answers.preflight.value.apache == apache && answers.preflight.value.resources == resources
      modifies this`ticks, checks
      ensures ended.None? ==> PassedUpTo(checks, 10)
      ensures ended.Some? ==> Conforms(ended.value, config, answers, startedAt, completedAt)
      ensures ended.Some? ==> 6 <= Stop(config, answers, 0) <= 9
    {
      hide Conforms, Stop;
      var ran: Ran;
      if apache.service != config.service || !apache.installed || !apache.active {
        ran := Failure(checks, Apache, Refused, ApacheUnhealthy, None);
        return Some(ran);
      }
      PassCheck(checks, Apache, None);
      if resources.rootFree < config.minRootFreeMib * 1024 * 1024 {
        ran := Failure(checks, RootSpace, Refused, RootSpaceReserveLow, None);
        return Some(ran);
      }
      PassCheck(checks, RootSpace, None);
      if resources.memoryAvailable < config.minMemoryMib * 1024 * 1024 {
        ran := Failure(checks, Memory, Refused, MemoryReserveLow, None);
        return Some(ran);
      }
      PassCheck(checks, Memory, None);
      var loadPerCpu := resources.load / (resources.cpus as real);
      LoadPerCpu(resources.load, resources.cpus as real, config.maxLoadPerCpu);
      if loadPerCpu > config.maxLoadPerCpu {
        ran := Failure(checks, Load, Refused, LoadAboveLimit, None);
        return Some(ran);
      }
      PassCheck(checks, Load, None);
      return None;
    }

    static lemma LoadPerCpu(load: real, cpus: real, limit: real)
      requires cpus >= 1.0
      ensures load / cpus > limit <==> load > limit * cpus
    {
      assert (load / cpus) * cpus == load;
      if load / cpus > limit { assert (load / cpus) * cpus > limit * cpus; }
      else { assert (load / cpus) * cpus <= limit * cpus; }
    }

    method RunWebsite(checks: CheckList) returns (ran: Ran)
      requires PassedUpTo(checks, 10)
      modifies this`calls, this`ticks, checks
      ensures calls == old(calls) + [ObserveSite]
      ensures Conforms(ran, config, answers, startedAt, completedAt) && Stop(config, answers, 0) >= 10
    {
      hide Conforms, Stop, ValidReport;
      var started := Monotonic();
      calls := calls + [ObserveSite];
      match answers.site {
        case Broke =>
          EscapeConforms(10);
          return Escaped;
        case Failed(failure) =>
          ran := Failure(checks, Website, Refused, Site(failure), Some(started));
          return;
        case Answered(seen) =>
          if seen.status != config.expectedStatus {
            ran := Failure(checks, Website, Refused, WebsiteStatusMismatch, Some(started));
            return;
          }
          if !seen.contentMatched {
            ran := Failure(checks, Website, Refused, WebsiteContentMismatch, Some(started));
            return;
          }
      }
      PassCheck(checks, Website, Some(started));
      StopsAt(11);
      ran := MakeReport(checks, AllPassed, None);
      PassConforms(checks);
    }

    lemma PassConforms(checks: CheckList)
      requires PassedUpTo(checks, 11) && Stop(config, answers, 0) == 11
      ensures var report := Report(AllPassed, startedAt, completedAt, checks.items, None);
              Conforms(if ValidReport(report) then Reported(report) else Escaped, config, answers, startedAt, completedAt)
    {
      hide Judge, Stop;
      assert Shaped(checks.items, 11);
      ShapedDurations(checks.items, 11);
    }

    // Whatever is answered: the report has every check once and in order, passed up to the first
    // that does not hold, and no call is made that belongs to a later check.
    method Run() returns (ran: Ran)
      modifies this`calls, this`ticks
      ensures Conforms(ran, config, answers, startedAt, completedAt)
      ensures calls == old(calls) + CallsThrough(Stop(config, answers, 0))
    {
      hide Conforms, Stop;
      var checks := new CheckList();
      PassCheck(checks, Configuration, None);
      var ended := RunLocal(checks);
      if ended.Some? { return ended.value; }
      ended := RunHelperVersion(checks);
      if ended.Some? { return ended.value; }
      ended := RunIdentity(checks);
      if ended.Some? { return ended.value; }
      var facts;
      facts, ran := RunHelperPreflight(checks);
      if facts.None? { return; }
      ended := RunFacts(checks, facts.value.apache, facts.value.resources);
      if ended.Some? { return ended.value; }
      ran := RunWebsite(checks);
    }

    // The production gate: open exactly when the whole policy is satisfied, raising exactly when
    // something escapes, and closed otherwise.
    method Gate() returns (answer: Machine.GateAnswer)
      modifies this`calls, this`ticks
      ensures answer == Machine.Verdict(true) <==> startedAt <= completedAt && Satisfied(config, answers)
      ensures answer == Machine.GateFault <==> completedAt < startedAt || BreaksFirst(config, answers)
    {
      var ran := Run();
      PassExactlyWhenSatisfied(ran, config, answers, startedAt, completedAt);
      EscapesExactly(ran, config, answers, startedAt, completedAt);
      if ran.Escaped? { return Machine.GateFault; }
      return Machine.Verdict(ran.report.outcome == AllPassed);
    }
  }
}
