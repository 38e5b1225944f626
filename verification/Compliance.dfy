/** The endpoint posture evaluator (internal/compliance/evaluator.go): which issues and CVEs a snapshot raises, the
    score and the severity, and how they move when the snapshot changes. The embedded CVE map is a parameter. */
module Compliance {
  import opened Text
  import opened Versions

  datatype CveEntry = CveEntry(id: string, severity: string, minVersion: string, maxVersion: string)
  datatype Product = Product(name: string, cves: seq<CveEntry>)
  datatype KbEntry = KbEntry(kb: string, cve: string, severity: string, product: string)
  datatype CveMap = CveMap(products: seq<Product>, kbs: seq<KbEntry>)

  datatype PatchRef = PatchRef(title: string, kb: string, severity: string)
  datatype AppRef = AppRef(name: string, version: string)

  /** age is the time since the last heartbeat, in nanoseconds. */
  datatype Signals = Signals(
    pendingReboot: bool,
    missing: int,
    patches: seq<PatchRef>,
    apps: seq<AppRef>,
    win11: Option<bool>,
    secureBoot: Option<bool>,
    edr: seq<string>,
    age: int,
    os: string)

  datatype Issue = Issue(category: string, code: string, severity: string, title: string, detail: string)
  datatype Vuln = Vuln(cve: string, severity: string, product: string)

  const REBOOT :=
    Issue("policy", "pending_reboot", "medium", "Pending reboot", "Host has a pending reboot flag set")
  const WIN11 :=
    Issue("misconfig", "win11_not_ready", "low", "Windows 11 readiness failed",
          "Host did not pass Win11 readiness checks")
  const SECURE_BOOT :=
    Issue("misconfig", "secure_boot_off", "medium", "Secure Boot disabled", "Secure Boot reported as not enabled")
  const EDR :=
    Issue("policy", "edr_missing", "high", "EDR not detected", "No endpoint protection product reported")
  const STALE :=
    Issue("policy", "agent_stale", "medium", "Stale agent", "No heartbeat in over 24 hours")

  const DAY: int := 24 * 3600 * 1_000_000_000

  // ---------- what a snapshot raises ----------

  /** One match of the CVE map: it raises an issue and a vulnerability. */
  datatype Finding = Finding(cve: string, severity: string, product: string, detail: string)

  function IssueOf(f: Finding): Issue { Issue("vulnerability", "cve:" + f.cve, f.severity, f.cve, f.detail) }
  function VulnOf(f: Finding): Vuln { Vuln(f.cve, f.severity, f.product) }

  function IssuesOf(fs: seq<Finding>): (r: seq<Issue>)
    ensures |r| == |fs| && forall i :: 0 <= i < |fs| ==> r[i] == IssueOf(fs[i])
  {
    seq(|fs|, i requires 0 <= i < |fs| => IssueOf(fs[i]))
  }

  function VulnsOf(fs: seq<Finding>): (r: seq<Vuln>)
    ensures |r| == |fs| && forall i :: 0 <= i < |fs| ==> r[i] == VulnOf(fs[i])
  {
    seq(|fs|, i requires 0 <= i < |fs| => VulnOf(fs[i]))
  }

  function Init<X>(xs: seq<X>): seq<X>
    requires xs != []
  {
    xs[..|xs| - 1]
  }

  function Last<X>(xs: seq<X>): X
    requires xs != []
  {
    xs[|xs| - 1]
  }

  function NormalKb(kb: string): string {
    var k := ToUpper(TrimSpace(kb));
    if HasPrefix(k, "KB") then k else "KB" + k
  }

  function KbFindings(kbs: seq<KbEntry>, kb: string): seq<Finding> {
    if kbs == [] then []
    else
      var m := Last(kbs);
      KbFindings(Init(kbs), kb)
      + if EqualFold(m.kb, kb) then [Finding(m.cve, m.severity, m.product, "Linked to missing " + kb)] else []
  }

  function PatchFindings(kbs: seq<KbEntry>, p: PatchRef): seq<Finding> {
    if p.kb == "" then [] else KbFindings(kbs, NormalKb(p.kb))
  }

  function PatchesFindings(kbs: seq<KbEntry>, ps: seq<PatchRef>): seq<Finding> {
    if ps == [] then [] else PatchesFindings(kbs, Init(ps)) + PatchFindings(kbs, Last(ps))
  }

  /** The installed version is not above the entry's maxVersion; minVersion is not consulted. */
  predicate Affected(c: CveEntry, version: string) { LessOrEqual(Version(version), Version(c.maxVersion)) }

  function CveFinding(c: CveEntry, app: AppRef): seq<Finding> {
    if Affected(c, app.version) then [Finding(c.id, c.severity, app.name, app.name + " " + app.version)] else []
  }

  function CveFindings(cves: seq<CveEntry>, app: AppRef): seq<Finding> {
    if cves == [] then [] else CveFindings(Init(cves), app) + CveFinding(Last(cves), app)
  }

  predicate Matches(prod: Product, app: AppRef) { Contains(ToLower(app.name), ToLower(prod.name)) }

  function ProductFindings(prod: Product, app: AppRef): seq<Finding> {
    if Matches(prod, app) then CveFindings(prod.cves, app) else []
  }

  function AppFindings(prods: seq<Product>, app: AppRef): seq<Finding> {
    if prods == [] then []
    else AppFindings(Init(prods), app) + ProductFindings(Last(prods), app)
  }

  function AppsFindings(prods: seq<Product>, apps: seq<AppRef>): seq<Finding> {
    if apps == [] then [] else AppsFindings(prods, Init(apps)) + AppFindings(prods, Last(apps))
  }

  function Findings(m: CveMap, sig: Signals): seq<Finding> {
    PatchesFindings(m.kbs, sig.patches) + AppsFindings(m.products, sig.apps)
  }

  predicate IsCritical(p: PatchRef) { ToLower(p.severity) == "critical" || ToLower(p.severity) == "important" }

  predicate HasCritical(ps: seq<PatchRef>) { exists p :: p in ps && IsCritical(p) }

  function PatchSeverity(sig: Signals): string {
    if HasCritical(sig.patches) then "critical" else if sig.missing >= 10 then "high" else "medium"
  }

  function Raise(b: bool, issue: Issue): seq<Issue> { if b then [issue] else [] }

  function RebootIssue(sig: Signals): seq<Issue> {
    Raise(sig.pendingReboot, REBOOT)
  }

  function PatchIssue(sig: Signals): seq<Issue> {
    if sig.missing > 0 then
      [Issue("patch", "missing_patches", PatchSeverity(sig), "Missing patches",
             Itoa(sig.missing) + " outstanding update(s)")]
    else []
  }

  /** Signals that are reported and bad. */
  predicate Off(flag: Option<bool>) { flag.Some? && !flag.value }

  predicate EdrMissing(sig: Signals) { EqualFold(sig.os, "windows") && |sig.edr| == 0 }

  function PostureIssues(sig: Signals): seq<Issue> {
    Raise(Off(sig.win11), WIN11) + Raise(Off(sig.secureBoot), SECURE_BOOT)
    + Raise(EdrMissing(sig), EDR) + Raise(sig.age > DAY, STALE)
  }

  function Issues(m: CveMap, sig: Signals): seq<Issue> {
    RebootIssue(sig) + PatchIssue(sig) + IssuesOf(Findings(m, sig)) + PostureIssues(sig)
  }

  // ---------- score and severity ----------

  function PenaltyOf(severity: string): nat {
    if severity == "critical" then 25
    else if severity == "high" then 15
    else if severity == "medium" then 8
    else if severity == "low" then 3
    else 1
  }

  function SevRank(s: string): nat {
    var l := ToLower(s);
    if l == "critical" then 4 else if l == "high" then 3 else if l == "medium" then 2 else if l == "low" then 1 else 0
  }

  /** The weights of all issues added up. */
  function Total(w: string -> nat, issues: seq<Issue>): nat {
    if issues == [] then 0 else Total(w, Init(issues)) + w(Last(issues).severity)
  }

  function Score(issues: seq<Issue>): nat {
    if Total(PenaltyOf, issues) >= 100 then 0 else 100 - Total(PenaltyOf, issues)
  }

  /** severity is that of the first issue of maximal rank, or "info" when no issue has a positive rank. */
  ghost predicate Worst(issues: seq<Issue>, severity: string) {
    && (forall i :: 0 <= i < |issues| ==> SevRank(issues[i].severity) <= SevRank(severity))
    && if SevRank(severity) == 0 then severity == "info"
       else exists i :: 0 <= i < |issues| && issues[i].severity == severity
                        && forall j :: 0 <= j < i ==> SevRank(issues[j].severity) < SevRank(severity)
  }

  /** The first vulnerability of each id, in order. */
  function Firsts(vs: seq<Vuln>): seq<Vuln> {
    if vs == [] then []
    else if exists k :: 0 <= k < |vs| - 1 && vs[k].cve == Last(vs).cve then Firsts(Init(vs))
    else Firsts(Init(vs)) + [Last(vs)]
  }

  // ---------- the evaluator ----------

  lemma PrefixStep<X>(xs: seq<X>, k: nat)
    requires k < |xs|
    ensures xs[..k + 1] != [] && Init(xs[..k + 1]) == xs[..k] && Last(xs[..k + 1]) == xs[k]
  {
  }

  lemma AppendFindings(issues: seq<Issue>, vulns: seq<Vuln>, fs: seq<Finding>, gs: seq<Finding>)
    ensures issues + IssuesOf(fs) + IssuesOf(gs) == issues + IssuesOf(fs + gs)
    ensures vulns + VulnsOf(fs) + VulnsOf(gs) == vulns + VulnsOf(fs + gs)
  {
  }

  method HasCriticalPatch(patches: seq<PatchRef>) returns (r: bool)
    ensures r <==> HasCritical(patches)
  {
    for k := 0 to |patches|
      invariant !exists p :: p in patches[..k] && IsCritical(p)
    {
      var s := ToLower(patches[k].severity);
      if s == "critical" || s == "important" {
        assert IsCritical(patches[k]);
        return true;
      }
    }
    assert patches[..|patches|] == patches;
    return false;
  }

  method MatchPatch(kbs: seq<KbEntry>, p: PatchRef, issues0: seq<Issue>, vulns0: seq<Vuln>)
    returns (issues: seq<Issue>, vulns: seq<Vuln>)
    ensures issues == issues0 + IssuesOf(PatchFindings(kbs, p))
    ensures vulns == vulns0 + VulnsOf(PatchFindings(kbs, p))
  {
    issues, vulns := issues0, vulns0;
    if p.kb == "" {
      return;
    }
    var kb := ToUpper(TrimSpace(p.kb));
    if !HasPrefix(kb, "KB") {
      kb := "KB" + kb;
    }
    for k := 0 to |kbs|
      invariant issues == issues0 + IssuesOf(KbFindings(kbs[..k], kb))
      invariant vulns == vulns0 + VulnsOf(KbFindings(kbs[..k], kb))
    {
      PrefixStep(kbs, k);
      var m := kbs[k];
      if EqualFold(m.kb, kb) {
        ghost var f := Finding(m.cve, m.severity, m.product, "Linked to missing " + kb);
        vulns := vulns + [Vuln(m.cve, m.severity, m.product)];
        issues := issues + [Issue("vulnerability", "cve:" + m.cve, m.severity, m.cve, "Linked to missing " + kb)];
        AppendFindings(issues0, vulns0, KbFindings(kbs[..k], kb), [f]);
      }
    }
    assert kbs[..|kbs|] == kbs;
  }

  method MatchCve(c: CveEntry, app: AppRef, issues0: seq<Issue>, vulns0: seq<Vuln>)
    returns (issues: seq<Issue>, vulns: seq<Vuln>)
    ensures issues == issues0 + IssuesOf(CveFinding(c, app))
    ensures vulns == vulns0 + VulnsOf(CveFinding(c, app))
  {
    issues, vulns := issues0, vulns0;
    var affected := VersionLTE(app.version, c.maxVersion);
    if affected {
      vulns := vulns + [Vuln(c.id, c.severity, app.name)];
      issues := issues + [Issue("vulnerability", "cve:" + c.id, c.severity, c.id, app.name + " " + app.version)];
    }
  }

  method MatchCves(cves: seq<CveEntry>, app: AppRef, issues0: seq<Issue>, vulns0: seq<Vuln>)
    returns (issues: seq<Issue>, vulns: seq<Vuln>)
    ensures issues == issues0 + IssuesOf(CveFindings(cves, app))
    ensures vulns == vulns0 + VulnsOf(CveFindings(cves, app))
  {
    issues, vulns := issues0, vulns0;
    for k := 0 to |cves|
      invariant issues == issues0 + IssuesOf(CveFindings(cves[..k], app))
      invariant vulns == vulns0 + VulnsOf(CveFindings(cves[..k], app))
    {
      PrefixStep(cves, k);
      issues, vulns := MatchCve(cves[k], app, issues, vulns);
      AppendFindings(issues0, vulns0, CveFindings(cves[..k], app), CveFinding(cves[k], app));
    }
    assert cves[..|cves|] == cves;
  }

  method MatchApp(prods: seq<Product>, app: AppRef, issues0: seq<Issue>, vulns0: seq<Vuln>)
    returns (issues: seq<Issue>, vulns: seq<Vuln>)
    ensures issues == issues0 + IssuesOf(AppFindings(prods, app))
    ensures vulns == vulns0 + VulnsOf(AppFindings(prods, app))
  {
    issues, vulns := issues0, vulns0;
    for k := 0 to |prods|
      invariant issues == issues0 + IssuesOf(AppFindings(prods[..k], app))
      invariant vulns == vulns0 + VulnsOf(AppFindings(prods[..k], app))
    {
      PrefixStep(prods, k);
      var prod := prods[k];
      ghost var before := AppFindings(prods[..k], app);
      assert AppFindings(prods[..k + 1], app) == before + ProductFindings(prod, app);
      if !Contains(ToLower(app.name), ToLower(prod.name)) {
        continue;
      }
      issues, vulns := MatchCves(prod.cves, app, issues, vulns);
      AppendFindings(issues0, vulns0, before, ProductFindings(prod, app));
    }
    assert prods[..|prods|] == prods;
  }

  method MatchPatches(kbs: seq<KbEntry>, patches: seq<PatchRef>, issues0: seq<Issue>, vulns0: seq<Vuln>)
    returns (issues: seq<Issue>, vulns: seq<Vuln>)
    ensures issues == issues0 + IssuesOf(PatchesFindings(kbs, patches))
    ensures vulns == vulns0 + VulnsOf(PatchesFindings(kbs, patches))
  {
    issues, vulns := issues0, vulns0;
    for k := 0 to |patches|
      invariant issues == issues0 + IssuesOf(PatchesFindings(kbs, patches[..k]))
      invariant vulns == vulns0 + VulnsOf(PatchesFindings(kbs, patches[..k]))
    {
      PrefixStep(patches, k);
      issues, vulns := MatchPatch(kbs, patches[k], issues, vulns);
      AppendFindings(issues0, vulns0, PatchesFindings(kbs, patches[..k]), PatchFindings(kbs, patches[k]));
    }
    assert patches[..|patches|] == patches;
  }

  method MatchApps(prods: seq<Product>, apps: seq<AppRef>, issues0: seq<Issue>, vulns0: seq<Vuln>)
    returns (issues: seq<Issue>, vulns: seq<Vuln>)
    ensures issues == issues0 + IssuesOf(AppsFindings(prods, apps))
    ensures vulns == vulns0 + VulnsOf(AppsFindings(prods, apps))
  {
    issues, vulns := issues0, vulns0;
    for k := 0 to |apps|
      invariant issues == issues0 + IssuesOf(AppsFindings(prods, apps[..k]))
      invariant vulns == vulns0 + VulnsOf(AppsFindings(prods, apps[..k]))
    {
      PrefixStep(apps, k);
      issues, vulns := MatchApp(prods, apps[k], issues, vulns);
      AppendFindings(issues0, vulns0, AppsFindings(prods, apps[..k]), AppFindings(prods, apps[k]));
    }
    assert apps[..|apps|] == apps;
  }

  method StateIssues(sig: Signals) returns (issues: seq<Issue>)
    ensures issues == RebootIssue(sig) + PatchIssue(sig)
  {
    issues := [];
    if sig.pendingReboot {
      issues := issues + [REBOOT];
    }
    if sig.missing > 0 {
      var sev := "medium";
      if sig.missing >= 10 {
        sev := "high";
      }
      var critical := HasCriticalPatch(sig.patches);
      if critical {
        sev := "critical";
      }
      issues := issues + [Issue("patch", "missing_patches", sev, "Missing patches",
                                Itoa(sig.missing) + " outstanding update(s)")];
    }
  }

  method AddPostureIssues(sig: Signals, issues0: seq<Issue>) returns (issues: seq<Issue>)
    ensures issues == issues0 + PostureIssues(sig)
  {
    issues := issues0;
    if sig.win11.Some? && !sig.win11.value {
      issues := issues + [WIN11];
    }
    if sig.secureBoot.Some? && !sig.secureBoot.value {
      issues := issues + [SECURE_BOOT];
    }
    if EqualFold(sig.os, "windows") && |sig.edr| == 0 {
      issues := issues + [EDR];
    }
    if sig.age > DAY {
      issues := issues + [STALE];
    }
  }

  method ScoreOf(issues: seq<Issue>) returns (score: int)
    ensures score == Score(issues)
  {
    score := 100;
    for k := 0 to |issues|
      invariant score == 100 - Total(PenaltyOf, issues[..k])
    {
      PrefixStep(issues, k);
      var sev := issues[k].severity;
      if sev == "critical" {
        score := score - 25;
      } else if sev == "high" {
        score := score - 15;
      } else if sev == "medium" {
        score := score - 8;
      } else if sev == "low" {
        score := score - 3;
      } else {
        score := score - 1;
      }
    }
    assert issues[..|issues|] == issues;
    if score < 0 {
      score := 0;
    }
  }

  lemma WorstStep(issues: seq<Issue>, issue: Issue, severity: string)
    requires Worst(issues, severity)
    ensures Worst(issues + [issue], if SevRank(issue.severity) > SevRank(severity) then issue.severity else severity)
  {
    var next := issues + [issue];
    assert forall i :: 0 <= i < |issues| ==> next[i] == issues[i];
    if SevRank(issue.severity) > SevRank(severity) {
      assert next[|issues|].severity == issue.severity;
    } else if SevRank(severity) > 0 {
      var i :| 0 <= i < |issues| && issues[i].severity == severity
               && forall j :: 0 <= j < i ==> SevRank(issues[j].severity) < SevRank(severity);
      assert next[i].severity == severity;
    }
  }

  lemma NothingWorst()
    ensures Worst([], "info")
  {
    assert ToLower("info")[0] == 'i';
  }

  method SeverityOf(issues: seq<Issue>) returns (severity: string)
    ensures Worst(issues, severity)
  {
    severity := "info";
    NothingWorst();
    assert issues[..0] == [];
    for k := 0 to |issues|
      invariant Worst(issues[..k], severity)
    {
      WorstStep(issues[..k], issues[k], severity);
      assert issues[..k] + [issues[k]] == issues[..k + 1];
      if SevRank(issues[k].severity) > SevRank(severity) {
        severity := issues[k].severity;
      }
    }
    assert issues[..|issues|] == issues;
    if |issues| == 0 {
      assert issues == [];
      severity := "info";
    }
  }

  method DedupeVulns(vs: seq<Vuln>) returns (r: seq<Vuln>)
    ensures r == Firsts(vs)
  {
    var seen: set<string> := {};
    r := [];
    for k := 0 to |vs|
      invariant forall id :: id in seen <==> exists j :: 0 <= j < k && vs[j].cve == id
      invariant r == Firsts(vs[..k])
    {
      PrefixStep(vs, k);
      assert forall j :: 0 <= j < k ==> vs[..k + 1][j] == vs[j];
      if vs[k].cve in seen {
        var j :| 0 <= j < k && vs[j].cve == vs[k].cve;
        assert vs[..k + 1][j].cve == vs[k].cve;
        continue;
      }
      seen := seen + {vs[k].cve};
      r := r + [vs[k]];
    }
    assert vs[..|vs|] == vs;
  }

  method Evaluate(m: CveMap, sig: Signals) returns (score: int, severity: string, issues: seq<Issue>, vulns: seq<Vuln>)
    ensures issues == Issues(m, sig)
    ensures vulns == Firsts(VulnsOf(Findings(m, sig)))
    ensures score == Score(issues)
    ensures Worst(issues, severity)
  {
    issues := StateIssues(sig);
    ghost var start := issues;
    ghost var fs := PatchesFindings(m.kbs, sig.patches);
    issues, vulns := MatchPatches(m.kbs, sig.patches, issues, []);
    issues, vulns := MatchApps(m.products, sig.apps, issues, vulns);
    AppendFindings(start, [], fs, AppsFindings(m.products, sig.apps));
    assert vulns == VulnsOf(Findings(m, sig));
    issues := AddPostureIssues(sig, issues);
    score := ScoreOf(issues);
    severity := SeverityOf(issues);
    vulns := DedupeVulns(vulns);
  }

  // ---------- the vulnerability list ----------

  predicate DistinctCves(vs: seq<Vuln>) {
    forall i, j :: 0 <= i < j < |vs| ==> vs[i].cve != vs[j].cve
  }

  ghost predicate Listed(vs: seq<Vuln>, id: string) { exists i :: 0 <= i < |vs| && vs[i].cve == id }

  ghost predicate FirstOfItsId(vs: seq<Vuln>, v: Vuln) {
    exists i :: 0 <= i < |vs| && vs[i] == v && forall j :: 0 <= j < i ==> vs[j].cve != v.cve
  }

  /** Deduplication keeps every id once, each with its first record. */
  lemma {:induction false} DedupeKeepsFirsts(vs: seq<Vuln>)
    ensures DistinctCves(Firsts(vs))
    ensures forall id :: Listed(Firsts(vs), id) <==> Listed(vs, id)
    ensures forall i :: 0 <= i < |Firsts(vs)| ==> FirstOfItsId(vs, Firsts(vs)[i])
  {
    if vs != [] {
      var before := Init(vs);
      DedupeKeepsFirsts(before);
      forall i | 0 <= i < |Firsts(before)| ensures FirstOfItsId(vs, Firsts(before)[i]) {
        var v := Firsts(before)[i];
        var k :| 0 <= k < |before| && before[k] == v && forall j :: 0 <= j < k ==> before[j].cve != v.cve;
        assert vs[k] == v;
      }
      forall id ensures Listed(Firsts(vs), id) <==> Listed(vs, id) {
        assert Listed(Firsts(before), id) <==> Listed(before, id);
        LastIsListed(vs, id);
      }
      if !exists k :: 0 <= k < |vs| - 1 && vs[k].cve == Last(vs).cve {
        assert !Listed(before, Last(vs).cve);
        assert !Listed(Firsts(before), Last(vs).cve);
        assert FirstOfItsId(vs, vs[|vs| - 1]);
      }
    }
  }

  lemma LastIsListed(vs: seq<Vuln>, id: string)
    requires vs != []
    ensures Listed(vs, id) <==> (Listed(Init(vs), id) || Last(vs).cve == id)
    ensures forall rest: seq<Vuln> :: Listed(rest + [Last(vs)], id) <==> (Listed(rest, id) || Last(vs).cve == id)
  {
    if Listed(Init(vs), id) {
      var k :| 0 <= k < |Init(vs)| && Init(vs)[k].cve == id;
      assert vs[k].cve == id;
    }
    forall rest: seq<Vuln> ensures Listed(rest + [Last(vs)], id) <==> (Listed(rest, id) || Last(vs).cve == id) {
      if Listed(rest, id) {
        var k :| 0 <= k < |rest| && rest[k].cve == id;
        assert (rest + [Last(vs)])[k].cve == id;
      }
      assert (rest + [Last(vs)])[|rest|] == Last(vs);
    }
  }

  ghost predicate Coded(issues: seq<Issue>, code: string) { exists i :: 0 <= i < |issues| && issues[i].code == code }

  lemma CodedAppend(a: seq<Issue>, b: seq<Issue>, code: string)
    ensures Coded(a + b, code) <==> Coded(a, code) || Coded(b, code)
  {
    if Coded(a, code) {
      var i :| 0 <= i < |a| && a[i].code == code;
      assert (a + b)[i].code == code;
    }
    if Coded(b, code) {
      var i :| 0 <= i < |b| && b[i].code == code;
      assert (a + b)[|a| + i].code == code;
    }
  }

  lemma CveCodesAreFindings(fs: seq<Finding>, id: string)
    ensures Coded(IssuesOf(fs), "cve:" + id) <==> Listed(VulnsOf(fs), id)
  {
    if Coded(IssuesOf(fs), "cve:" + id) {
      var i :| 0 <= i < |fs| && IssuesOf(fs)[i].code == "cve:" + id;
      assert ("cve:" + fs[i].cve)[4..] == ("cve:" + id)[4..];
      assert VulnsOf(fs)[i].cve == id;
    }
    if Listed(VulnsOf(fs), id) {
      var i :| 0 <= i < |fs| && VulnsOf(fs)[i].cve == id;
      assert IssuesOf(fs)[i].code == "cve:" + id;
    }
  }

  /** No code of these starts with 'c', so none is a CVE code. */
  predicate NoneCve(issues: seq<Issue>) {
    forall i :: 0 <= i < |issues| ==> issues[i].code != "" && issues[i].code[0] != 'c'
  }

  lemma NoneCveAppend(a: seq<Issue>, b: seq<Issue>)
    requires NoneCve(a) && NoneCve(b)
    ensures NoneCve(a + b)
  {
  }

  lemma PostureNoneCve(sig: Signals)
    ensures NoneCve(PostureIssues(sig))
  {
    var w, b, e, t := Raise(Off(sig.win11), WIN11), Raise(Off(sig.secureBoot), SECURE_BOOT),
                      Raise(EdrMissing(sig), EDR), Raise(sig.age > DAY, STALE);
    NoneCveAppend(w, b);
    NoneCveAppend(w + b, e);
    NoneCveAppend(w + b + e, t);
  }

  lemma NotCoded(issues: seq<Issue>, id: string)
    requires NoneCve(issues)
    ensures !Coded(issues, "cve:" + id)
  {
    assert ("cve:" + id)[0] == 'c';
  }

  /** The reported CVE ids are exactly the issue codes that start with "cve:", stripped of it. */
  lemma VulnsMatchCodes(m: CveMap, sig: Signals, id: string)
    ensures Listed(Firsts(VulnsOf(Findings(m, sig))), id) <==> Coded(Issues(m, sig), "cve:" + id)
  {
    var code := "cve:" + id;
    var fs := Findings(m, sig);
    var head := RebootIssue(sig) + PatchIssue(sig);
    DedupeKeepsFirsts(VulnsOf(fs));
    CveCodesAreFindings(fs, id);
    NoneCveAppend(RebootIssue(sig), PatchIssue(sig));
    PostureNoneCve(sig);
    NotCoded(head, id);
    NotCoded(PostureIssues(sig), id);
    CodedAppend(head, IssuesOf(fs), code);
    CodedAppend(head + IssuesOf(fs), PostureIssues(sig), code);
  }

  // ---------- how score and severity move ----------

  /** b reports everything bad that a reports, and possibly more patches and apps, in any order. */
  ghost predicate AtLeastAsBad(a: Signals, b: Signals) {
    && (a.pendingReboot ==> b.pendingReboot)
    && a.missing <= b.missing
    && multiset(a.patches) <= multiset(b.patches)
    && multiset(a.apps) <= multiset(b.apps)
    && (Off(a.win11) ==> Off(b.win11))
    && (Off(a.secureBoot) ==> Off(b.secureBoot))
    && (EdrMissing(a) ==> EdrMissing(b))
    && a.age <= b.age
  }

  /** A weight that respects the order in which the missing-patches issue escalates. */
  ghost predicate Escalates(w: string -> nat) { w("medium") <= w("high") <= w("critical") }

  function Sum<X>(g: X -> nat, xs: seq<X>): nat {
    if xs == [] then 0 else Sum(g, Init(xs)) + g(Last(xs))
  }

  lemma {:induction false} SumRemove<X>(g: X -> nat, xs: seq<X>, i: nat)
    requires i < |xs|
    ensures Sum(g, xs) == Sum(g, xs[..i] + xs[i + 1..]) + g(xs[i])
  {
    if i == |xs| - 1 {
      assert xs[..i] + xs[i + 1..] == Init(xs);
    } else {
      SumRemove(g, Init(xs), i);
      assert Init(xs[..i] + xs[i + 1..]) == Init(xs)[..i] + Init(xs)[i + 1..];
    }
  }

  lemma {:induction false} SumGrows<X>(g: X -> nat, xs: seq<X>, ys: seq<X>)
    requires multiset(xs) <= multiset(ys)
    ensures Sum(g, xs) <= Sum(g, ys)
  {
    if xs != [] {
      var x := Last(xs);
      assert xs == Init(xs) + [x];
      assert x in multiset(ys);
      var i :| 0 <= i < |ys| && ys[i] == x;
      var rest := ys[..i] + ys[i + 1..];
      assert ys == ys[..i] + [x] + ys[i + 1..];
      assert multiset(ys) == multiset(rest) + multiset{x};
      assert multiset(xs) == multiset(Init(xs)) + multiset{x};
      forall y ensures multiset(Init(xs))[y] <= multiset(rest)[y] {
        assert multiset(xs)[y] <= multiset(ys)[y];
      }
      SumRemove(g, ys, i);
      SumGrows(g, Init(xs), rest);
    }
  }

  lemma {:induction false} SumUpdate<X>(g: X -> nat, xs: seq<X>, i: nat, x: X)
    requires i < |xs| && g(x) <= g(xs[i])
    ensures Sum(g, xs[i := x]) <= Sum(g, xs)
  {
    if i < |xs| - 1 {
      assert Init(xs[i := x]) == Init(xs)[i := x];
      SumUpdate(g, Init(xs), i, x);
    } else {
      assert Init(xs[i := x]) == Init(xs);
    }
  }

  lemma {:induction false} TotalAppend(w: string -> nat, a: seq<Issue>, b: seq<Issue>)
    ensures Total(w, a + b) == Total(w, a) + Total(w, b)
  {
    if b == [] {
      assert a + b == a;
    } else {
      assert Init(a + b) == a + Init(b);
      TotalAppend(w, a, Init(b));
    }
  }

  /** The weights of findings added up. */
  function Burden(w: string -> nat, fs: seq<Finding>): nat {
    if fs == [] then 0 else Burden(w, Init(fs)) + w(Last(fs).severity)
  }

  lemma {:induction false} BurdenIsTotal(w: string -> nat, fs: seq<Finding>)
    ensures Total(w, IssuesOf(fs)) == Burden(w, fs)
  {
    if fs != [] {
      assert Init(IssuesOf(fs)) == IssuesOf(Init(fs));
      BurdenIsTotal(w, Init(fs));
    }
  }

  lemma {:induction false} BurdenAppend(w: string -> nat, a: seq<Finding>, b: seq<Finding>)
    ensures Burden(w, a + b) == Burden(w, a) + Burden(w, b)
  {
    if b == [] {
      assert a + b == a;
    } else {
      assert Init(a + b) == a + Init(b);
      BurdenAppend(w, a, Init(b));
    }
  }

  /** What one patch, or one app, adds to the total. */
  function PatchWeight(w: string -> nat, kbs: seq<KbEntry>, p: PatchRef): nat { Burden(w, PatchFindings(kbs, p)) }
  function AppWeight(w: string -> nat, prods: seq<Product>, a: AppRef): nat { Burden(w, AppFindings(prods, a)) }

  lemma {:induction false} PatchesBurden(w: string -> nat, kbs: seq<KbEntry>, g: PatchRef -> nat, ps: seq<PatchRef>)
    requires forall p :: g(p) == PatchWeight(w, kbs, p)
    ensures Burden(w, PatchesFindings(kbs, ps)) == Sum(g, ps)
  {
    if ps != [] {
      PatchesBurden(w, kbs, g, Init(ps));
      BurdenAppend(w, PatchesFindings(kbs, Init(ps)), PatchFindings(kbs, Last(ps)));
      assert g(Last(ps)) == PatchWeight(w, kbs, Last(ps));
    }
  }

  lemma {:induction false} AppsBurden(w: string -> nat, prods: seq<Product>, g: AppRef -> nat, apps: seq<AppRef>)
    requires forall a :: g(a) == AppWeight(w, prods, a)
    ensures Burden(w, AppsFindings(prods, apps)) == Sum(g, apps)
  {
    if apps != [] {
      AppsBurden(w, prods, g, Init(apps));
      BurdenAppend(w, AppsFindings(prods, Init(apps)), AppFindings(prods, Last(apps)));
      assert g(Last(apps)) == AppWeight(w, prods, Last(apps));
    }
  }

  lemma PatchesGrow(w: string -> nat, kbs: seq<KbEntry>, a: seq<PatchRef>, b: seq<PatchRef>)
    requires multiset(a) <= multiset(b)
    ensures Burden(w, PatchesFindings(kbs, a)) <= Burden(w, PatchesFindings(kbs, b))
  {
    var g := p => PatchWeight(w, kbs, p);
    PatchesBurden(w, kbs, g, a);
    PatchesBurden(w, kbs, g, b);
    SumGrows(g, a, b);
  }

  lemma AppsGrow(w: string -> nat, prods: seq<Product>, a: seq<AppRef>, b: seq<AppRef>)
    requires multiset(a) <= multiset(b)
    ensures Burden(w, AppsFindings(prods, a)) <= Burden(w, AppsFindings(prods, b))
  {
    var g := app => AppWeight(w, prods, app);
    AppsBurden(w, prods, g, a);
    AppsBurden(w, prods, g, b);
    SumGrows(g, a, b);
  }

  lemma TotalOfFour(w: string -> nat, a: seq<Issue>, b: seq<Issue>, c: seq<Issue>, d: seq<Issue>)
    ensures Total(w, a + b + c + d) == Total(w, a) + Total(w, b) + Total(w, c) + Total(w, d)
  {
    TotalAppend(w, a, b);
    TotalAppend(w, a + b, c);
    TotalAppend(w, a + b + c, d);
  }

  lemma IssuesTotal(w: string -> nat, m: CveMap, sig: Signals)
    ensures Total(w, Issues(m, sig))
         == Total(w, RebootIssue(sig)) + Total(w, PatchIssue(sig))
            + Burden(w, PatchesFindings(m.kbs, sig.patches)) + Burden(w, AppsFindings(m.products, sig.apps))
            + Total(w, PostureIssues(sig))
  {
    TotalOfFour(w, RebootIssue(sig), PatchIssue(sig), IssuesOf(Findings(m, sig)), PostureIssues(sig));
    BurdenIsTotal(w, Findings(m, sig));
    BurdenAppend(w, PatchesFindings(m.kbs, sig.patches), AppsFindings(m.products, sig.apps));
  }

  lemma RaiseTotal(w: string -> nat, b: bool, issue: Issue)
    ensures Total(w, Raise(b, issue)) == if b then w(issue.severity) else 0
  {
    if b { assert Init([issue]) == []; }
  }

  lemma PostureTotal(w: string -> nat, sig: Signals)
    ensures Total(w, PostureIssues(sig))
         == (if Off(sig.win11) then w("low") else 0) + (if Off(sig.secureBoot) then w("medium") else 0)
            + (if EdrMissing(sig) then w("high") else 0) + (if sig.age > DAY then w("medium") else 0)
  {
    TotalOfFour(w, Raise(Off(sig.win11), WIN11), Raise(Off(sig.secureBoot), SECURE_BOOT), Raise(EdrMissing(sig), EDR),
                Raise(sig.age > DAY, STALE));
    RaiseTotal(w, Off(sig.win11), WIN11);
    RaiseTotal(w, Off(sig.secureBoot), SECURE_BOOT);
    RaiseTotal(w, EdrMissing(sig), EDR);
    RaiseTotal(w, sig.age > DAY, STALE);
  }

  lemma PatchIssueTotal(w: string -> nat, a: Signals, b: Signals)
    requires AtLeastAsBad(a, b) && Escalates(w)
    ensures Total(w, PatchIssue(a)) <= Total(w, PatchIssue(b))
  {
    if a.missing > 0 {
      assert Init(PatchIssue(a)) == [] && Init(PatchIssue(b)) == [];
      if HasCritical(a.patches) {
        var p :| p in a.patches && IsCritical(p);
        assert p in multiset(a.patches);
        assert p in b.patches;
      }
    }
  }

  lemma RebootTotal(w: string -> nat, a: Signals, b: Signals)
    requires a.pendingReboot ==> b.pendingReboot
    ensures Total(w, RebootIssue(a)) <= Total(w, RebootIssue(b))
  {
    RaiseTotal(w, a.pendingReboot, REBOOT);
    RaiseTotal(w, b.pendingReboot, REBOOT);
  }

  lemma PostureGrows(w: string -> nat, a: Signals, b: Signals)
    requires AtLeastAsBad(a, b)
    ensures Total(w, PostureIssues(a)) <= Total(w, PostureIssues(b))
  {
    PostureTotal(w, a);
    PostureTotal(w, b);
  }

  lemma TotalGrows(w: string -> nat, m: CveMap, a: Signals, b: Signals)
    requires AtLeastAsBad(a, b) && Escalates(w)
    ensures Total(w, Issues(m, a)) <= Total(w, Issues(m, b))
  {
    IssuesTotal(w, m, a);
    IssuesTotal(w, m, b);
    RebootTotal(w, a, b);
    PatchIssueTotal(w, a, b);
    PatchesGrow(w, m.kbs, a.patches, b.patches);
    AppsGrow(w, m.products, a.apps, b.apps);
    PostureGrows(w, a, b);
  }

  function RankIndicator(r: nat): string -> nat { sev => if SevRank(sev) >= r then 1 else 0 }

  /** The highest rank among the issues; 0 when there are none. */
  function MaxRank(issues: seq<Issue>): nat {
    if issues == [] then 0
    else
      var before, last := MaxRank(Init(issues)), SevRank(Last(issues).severity);
      if last > before then last else before
  }

  /** The severity Evaluate returns has the highest rank. */
  lemma {:induction false} WorstIsMaxRank(issues: seq<Issue>, severity: string)
    requires Worst(issues, severity)
    ensures SevRank(severity) == MaxRank(issues)
  {
    RankReached(issues, MaxRank(issues));
    if SevRank(severity) > 0 {
      var i :| 0 <= i < |issues| && issues[i].severity == severity;
      RankBounds(issues, i);
    }
  }

  lemma {:induction false} RankBounds(issues: seq<Issue>, i: nat)
    requires i < |issues|
    ensures SevRank(issues[i].severity) <= MaxRank(issues)
  {
    if i < |issues| - 1 { RankBounds(Init(issues), i); }
  }

  lemma {:induction false} RankReached(issues: seq<Issue>, r: nat)
    requires r == MaxRank(issues)
    ensures r > 0 ==> exists i :: 0 <= i < |issues| && SevRank(issues[i].severity) == r
  {
    if r > 0 && SevRank(Last(issues).severity) != r {
      RankReached(Init(issues), r);
      var i :| 0 <= i < |Init(issues)| && SevRank(Init(issues)[i].severity) == r;
      assert SevRank(issues[i].severity) == r;
    } else if r > 0 {
      assert SevRank(issues[|issues| - 1].severity) == r;
    }
  }

  lemma {:induction false} SomeReaches(issues: seq<Issue>, r: nat)
    requires r > 0
    ensures Total(RankIndicator(r), issues) > 0 <==> MaxRank(issues) >= r
  {
    if issues != [] { SomeReaches(Init(issues), r); }
  }

  lemma NamedRanks()
    ensures SevRank("critical") == 4 && SevRank("high") == 3 && SevRank("medium") == 2
    ensures SevRank("low") == 1 && SevRank("info") == 0
  {
    assert ToLower("critical") == "critical" && ToLower("high") == "high" && ToLower("medium") == "medium";
    assert ToLower("low") == "low" && ToLower("info") == "info";
  }

  /** More patches or apps, a higher missing-patch count or more bad signals never raise the score and never
      lower the rank of the severity. */
  lemma WorseNeverScoresHigher(m: CveMap, a: Signals, b: Signals)
    requires AtLeastAsBad(a, b)
    ensures Score(Issues(m, b)) <= Score(Issues(m, a))
    ensures MaxRank(Issues(m, a)) <= MaxRank(Issues(m, b))
  {
    TotalGrows(PenaltyOf, m, a, b);
    var r := MaxRank(Issues(m, a));
    if r > 0 {
      NamedRanks();
      TotalGrows(RankIndicator(r), m, a, b);
      SomeReaches(Issues(m, a), r);
      SomeReaches(Issues(m, b), r);
    }
  }

  // ---------- upgrading an app ----------

  lemma FindingAppended(w: string -> nat, fs: seq<Finding>, f: Finding)
    ensures Burden(w, fs + [f]) == Burden(w, fs) + w(f.severity)
    ensures fs + [] == fs
  {
    assert Init(fs + [f]) == fs;
  }

  lemma {:induction false} UpgradedCves(w: string -> nat, cves: seq<CveEntry>, app: AppRef, newer: string)
    requires LessOrEqual(Version(app.version), Version(newer))
    ensures Burden(w, CveFindings(cves, app.(version := newer))) <= Burden(w, CveFindings(cves, app))
  {
    if cves != [] {
      var up := app.(version := newer);
      var c := Last(cves);
      UpgradedCves(w, Init(cves), app, newer);
      if Affected(c, newer) {
        OrderTransitive(Version(app.version), Version(newer), Version(c.maxVersion));
      }
      FindingAppended(w, CveFindings(Init(cves), app),
                      Finding(c.id, c.severity, app.name, app.name + " " + app.version));
      FindingAppended(w, CveFindings(Init(cves), up), Finding(c.id, c.severity, app.name, app.name + " " + newer));
    }
  }

  lemma {:induction false} UpgradedApp(w: string -> nat, prods: seq<Product>, app: AppRef, newer: string)
    requires LessOrEqual(Version(app.version), Version(newer))
    ensures AppWeight(w, prods, app.(version := newer)) <= AppWeight(w, prods, app)
  {
    if prods != [] {
      var up := app.(version := newer);
      var prod := Last(prods);
      UpgradedApp(w, Init(prods), app, newer);
      UpgradedCves(w, prod.cves, app, newer);
      BurdenAppend(w, AppFindings(Init(prods), app), ProductFindings(prod, app));
      BurdenAppend(w, AppFindings(Init(prods), up), ProductFindings(prod, up));
    }
  }

  lemma UpgradedApps(w: string -> nat, prods: seq<Product>, apps: seq<AppRef>, i: nat, newer: string)
    requires i < |apps| && LessOrEqual(Version(apps[i].version), Version(newer))
    ensures Burden(w, AppsFindings(prods, apps[i := apps[i].(version := newer)]))
         <= Burden(w, AppsFindings(prods, apps))
  {
    var up := apps[i].(version := newer);
    var g := app => AppWeight(w, prods, app);
    UpgradedApp(w, prods, apps[i], newer);
    AppsBurden(w, prods, g, apps);
    AppsBurden(w, prods, g, apps[i := up]);
    SumUpdate(g, apps, i, up);
  }

  lemma OtherIssuesSame(a: Signals, b: Signals)
    requires a.(apps := b.apps) == b
    ensures RebootIssue(a) == RebootIssue(b) && PatchIssue(a) == PatchIssue(b) && PostureIssues(a) == PostureIssues(b)
    ensures a.patches == b.patches
  {
  }

  lemma OnlyAppsDiffer(w: string -> nat, m: CveMap, a: Signals, b: Signals)
    requires RebootIssue(a) == RebootIssue(b) && PatchIssue(a) == PatchIssue(b) && PostureIssues(a) == PostureIssues(b)
    requires a.patches == b.patches
    requires Burden(w, AppsFindings(m.products, b.apps)) <= Burden(w, AppsFindings(m.products, a.apps))
    ensures Total(w, Issues(m, b)) <= Total(w, Issues(m, a))
  {
    IssuesTotal(w, m, a);
    IssuesTotal(w, m, b);
  }

  function Upgraded(sig: Signals, i: nat, newer: string): Signals
    requires i < |sig.apps|
  {
    sig.(apps := sig.apps[i := sig.apps[i].(version := newer)])
  }

  lemma UpgradedTotal(w: string -> nat, m: CveMap, sig: Signals, i: nat, newer: string)
    requires i < |sig.apps| && LessOrEqual(Version(sig.apps[i].version), Version(newer))
    ensures Total(w, Issues(m, Upgraded(sig, i, newer))) <= Total(w, Issues(m, sig))
  {
    UpgradedApps(w, m.products, sig.apps, i, newer);
    OtherIssuesSame(sig, Upgraded(sig, i, newer));
    OnlyAppsDiffer(w, m, sig, Upgraded(sig, i, newer));
  }

  /** Replacing an installed app by a version that compares at least as high never lowers the score and never raises
      the rank of the severity. */
  lemma UpgradeNeverScoresLower(m: CveMap, sig: Signals, i: nat, newer: string)
    requires i < |sig.apps| && LessOrEqual(Version(sig.apps[i].version), Version(newer))
    ensures Score(Issues(m, sig)) <= Score(Issues(m, Upgraded(sig, i, newer)))
    ensures MaxRank(Issues(m, Upgraded(sig, i, newer))) <= MaxRank(Issues(m, sig))
  {
    UpgradedTotal(PenaltyOf, m, sig, i, newer);
    var r := MaxRank(Issues(m, Upgraded(sig, i, newer)));
    if r > 0 {
      UpgradedTotal(RankIndicator(r), m, sig, i, newer);
      SomeReaches(Issues(m, Upgraded(sig, i, newer)), r);
      SomeReaches(Issues(m, sig), r);
    }
  }
}
