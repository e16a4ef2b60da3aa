/** The Inspector-to-Prism finding mapper: turns a parsed AWS Inspector
    findings report into a Prism issues report. */
module Mapper {
  import opened GoStrings

  // ---------------------------------------------------------------------
  // Inspector side (input)
  // ---------------------------------------------------------------------

  /** One entry of a finding's `Resources`: the container image's repository
      name, the EC2 instance's key name and the resource's `Name` tag. */
  datatype Resource = Resource(repositoryName: string, keyName: string, tagName: string)

  /** One Inspector finding. `vulnerabilityId` is
      `PackageVulnerabilityDetails.VulnerabilityId` and `recommendationText` is
      `Remediation.Recommendation.Text`; the unused `Status` field is not kept. */
  datatype InspectorItem = InspectorItem(
    title: string,
    description: string,
    severity: string,
    vulnerabilityId: string,
    recommendationText: string,
    resources: seq<Resource>)

  /** The root of an Inspector report. */
  datatype InspectorBaseFile = InspectorBaseFile(findings: seq<InspectorItem>)

  // ---------------------------------------------------------------------
  // Prism side (output)
  // ---------------------------------------------------------------------

  datatype PrismHost = PrismHost(name: string)

  datatype PrismItem = PrismItem(
    name: string,
    originalRiskRating: string,
    clientDefinedRiskRating: string,
    finding: string,
    recommendation: string,
    affectedHosts: seq<PrismHost>,
    cves: seq<string>)

  datatype PrismBaseFile = PrismBaseFile(version: int, issues: seq<PrismItem>)

  /** The format version every Prism report carries. */
  const PrismVersion := 1

  /** The marker whose presence makes a vulnerability id a CVE. */
  const CvePrefix := "CVE-"

  // ---------------------------------------------------------------------
  // Severity normalisation
  // ---------------------------------------------------------------------

  /** The five ratings Prism accepts. */
  predicate IsPrismRating(r: string)
  {
    r == "Info" || r == "Low" || r == "Medium" || r == "High" || r == "Critical"
  }

  /** Maps an Inspector severity onto a Prism rating by exact, case-sensitive
      match. `INFORMATIONAL` has an empty case in the switch, which leaves the
      switch and reaches the final `Info`, the same as any unknown string. */
  function InspectorRatingToPrism(rating: string): (r: string)
    ensures IsPrismRating(r)
    ensures r == "Low" <==> rating == "LOW"
    ensures r == "Medium" <==> rating == "MEDIUM"
    ensures r == "High" <==> rating == "HIGH"
    ensures r == "Critical" <==> rating == "CRITICAL"
    ensures r == "Info" <==> rating !in {"LOW", "MEDIUM", "HIGH", "CRITICAL"}
  {
    match rating
    case "INFORMATIONAL" => "Info"
    case "UNTRIAGED" => "Info"
    case "LOW" => "Low"
    case "MEDIUM" => "Medium"
    case "HIGH" => "High"
    case "CRITICAL" => "Critical"
    case _ => "Info"
  }

  /** The severity table as data: the severities that have an entry of their own. */
  const SeverityTable: map<string, string> :=
    map["UNTRIAGED" := "Info", "LOW" := "Low", "MEDIUM" := "Medium",
        "HIGH" := "High", "CRITICAL" := "Critical"]

  /** The switch is a lookup in the table, with `Info` for every severity
      the table does not list (`INFORMATIONAL` among them). */
  lemma RatingIsTableLookup(rating: string)
    ensures InspectorRatingToPrism(rating)
         == if rating in SeverityTable then SeverityTable[rating] else "Info"
  {
  }

  /** Matching is case-sensitive: a severity spelled in lower case or title
      case is not recognised and becomes `Info`. */
  lemma RatingIsCaseSensitive()
    ensures InspectorRatingToPrism("low") == "Info"
    ensures InspectorRatingToPrism("Critical") == "Info"
    ensures InspectorRatingToPrism("INFORMATIONAL") == "Info"
  {
  }

  // ---------------------------------------------------------------------
  // The per-finding mapping, as a function
  // ---------------------------------------------------------------------

  /** The transform indexes `Resources[0]` unconditionally, so it is only
      defined on findings that have at least one resource. */
  predicate HasResource(f: InspectorItem)
  {
    |f.resources| > 0
  }

  predicate EveryFindingHasResource(fs: seq<InspectorItem>)
  {
    forall i :: 0 <= i < |fs| ==> HasResource(fs[i])
  }

  /** The affected host's name: a non-empty key name selects the `Name` tag,
      otherwise the repository name (possibly empty) is used. */
  function HostName(r: Resource): (name: string)
    ensures r.keyName != "" ==> name == r.tagName
    ensures r.keyName == "" && r.repositoryName != "" ==> name == r.repositoryName
    ensures r.keyName == "" && r.repositoryName == "" ==> name == ""
  {
    if r.keyName != "" then r.tagName else r.repositoryName
  }

  /** The CVE list: the vulnerability id alone if it contains `CVE-`, else nothing. */
  function CvesOf(vulnerabilityId: string): (cves: seq<string>)
    ensures |cves| <= 1
    ensures cves == [vulnerabilityId] <==> Occurs(vulnerabilityId, CvePrefix)
    ensures cves == [] <==> !Occurs(vulnerabilityId, CvePrefix)
  {
    if Contains(vulnerabilityId, CvePrefix) then [vulnerabilityId] else []
  }

  /** A CVE identifier is kept; the empty identifier is dropped. */
  lemma CvesOfExamples()
    ensures CvesOf("CVE-2023-12345") == ["CVE-2023-12345"]
    ensures CvesOf("") == []
  {
  }

  /** The Prism issue built from one Inspector finding. */
  function FindingToIssue(f: InspectorItem): (issue: PrismItem)
    requires HasResource(f)
  {
    PrismItem(
      name := f.title,
      originalRiskRating := InspectorRatingToPrism(f.severity),
      clientDefinedRiskRating := InspectorRatingToPrism(f.severity),
      finding := f.description,
      recommendation := f.recommendationText,
      affectedHosts := [PrismHost(HostName(f.resources[0]))],
      cves := CvesOf(f.vulnerabilityId))
  }

  /** The issues built from a sequence of findings, one per finding, in order. */
  function FindingsToIssues(fs: seq<InspectorItem>): (issues: seq<PrismItem>)
    requires EveryFindingHasResource(fs)
    ensures |issues| == |fs|
    ensures forall i :: 0 <= i < |fs| ==> issues[i] == FindingToIssue(fs[i])
  {
    if fs == [] then []
    else FindingsToIssues(fs[..|fs| - 1]) + [FindingToIssue(fs[|fs| - 1])]
  }

  /** The whole Prism report built from an Inspector report. */
  function PrismReport(baseFile: InspectorBaseFile): (report: PrismBaseFile)
    requires EveryFindingHasResource(baseFile.findings)
    ensures report.version == 1
    ensures |report.issues| == |baseFile.findings|
  {
    PrismBaseFile(PrismVersion, FindingsToIssues(baseFile.findings))
  }

  // ---------------------------------------------------------------------
  // What the report promises, issue by issue
  // ---------------------------------------------------------------------

  /** Issue `i` copies the texts of finding `i` and carries the same
      normalised rating in both rating fields. */
  lemma IssueCopiesFinding(baseFile: InspectorBaseFile, i: int)
    requires EveryFindingHasResource(baseFile.findings)
    requires 0 <= i < |baseFile.findings|
    ensures var f, issue := baseFile.findings[i], PrismReport(baseFile).issues[i];
      && issue.name == f.title
      && issue.finding == f.description
      && issue.recommendation == f.recommendationText
      && issue.originalRiskRating == issue.clientDefinedRiskRating
      && issue.originalRiskRating == InspectorRatingToPrism(f.severity)
      && IsPrismRating(issue.originalRiskRating)
  {
  }

  /** Issue `i` lists finding `i`'s vulnerability id as its only CVE exactly
      when the id contains `CVE-`, and lists no CVE otherwise. */
  lemma IssueCves(baseFile: InspectorBaseFile, i: int)
    requires EveryFindingHasResource(baseFile.findings)
    requires 0 <= i < |baseFile.findings|
    ensures var id, cves := baseFile.findings[i].vulnerabilityId, PrismReport(baseFile).issues[i].cves;
      && |cves| <= 1
      && (cves == [id] <==> Occurs(id, CvePrefix))
      && (cves == [] <==> !Occurs(id, CvePrefix))
  {
  }

  /** Issue `i` has exactly one affected host, named from finding `i`'s first
      resource: the `Name` tag when the key name is set (even if a repository
      name is set too), else the repository name, else the empty string. */
  lemma IssueHost(baseFile: InspectorBaseFile, i: int)
    requires EveryFindingHasResource(baseFile.findings)
    requires 0 <= i < |baseFile.findings|
    ensures var r, hosts := baseFile.findings[i].resources[0], PrismReport(baseFile).issues[i].affectedHosts;
      && |hosts| == 1
      && (r.keyName != "" ==> hosts[0].name == r.tagName)
      && (r.keyName == "" && r.repositoryName != "" ==> hosts[0].name == r.repositoryName)
      && (r.keyName == "" && r.repositoryName == "" ==> hosts[0].name == "")
  {
  }

  /** Resources after the first never affect the issue built from a finding. */
  lemma OnlyFirstResourceMatters(f: InspectorItem, g: InspectorItem)
    requires HasResource(f) && HasResource(g)
    requires f.resources[0] == g.resources[0]
    requires f.(resources := []) == g.(resources := [])
    ensures FindingToIssue(f) == FindingToIssue(g)
  {
  }

  /** The mapping works finding by finding: the issues of two reports laid
      end to end are the issues of each, laid end to end in the same order. */
  lemma FindingsToIssuesAppend(a: seq<InspectorItem>, b: seq<InspectorItem>)
    requires EveryFindingHasResource(a) && EveryFindingHasResource(b)
    ensures EveryFindingHasResource(a + b)
    ensures FindingsToIssues(a + b) == FindingsToIssues(a) + FindingsToIssues(b)
  {
  }

  // ---------------------------------------------------------------------
  // The mapper itself
  // ---------------------------------------------------------------------

  /** Builds the Prism report the way the source does: a zero-valued report
      whose version is then set to 1, and a loop over the findings that fills
      in each issue field by field, appends the CVE when the id contains
      `CVE-`, names the host by two independent `if`s (the second overwriting
      the first) and appends the issue. */
  method InspectorToPrism(baseFile: InspectorBaseFile) returns (prismFile: PrismBaseFile)
    requires EveryFindingHasResource(baseFile.findings)
    ensures prismFile == PrismReport(baseFile)
  {
    prismFile := PrismBaseFile(0, []);
    prismFile := prismFile.(version := 1);

    var k := 0;
    while k < |baseFile.findings|
      invariant 0 <= k <= |baseFile.findings|
      invariant prismFile.version == PrismVersion
      invariant |prismFile.issues| == k
      invariant forall i :: 0 <= i < k ==> prismFile.issues[i] == FindingToIssue(baseFile.findings[i])
    {
      var finding := baseFile.findings[k];
      assert HasResource(finding);

      var prismItem := PrismItem("", "", "", "", "", [], []);
      prismItem := prismItem.(name := finding.title);
      prismItem := prismItem.(finding := finding.description);
      prismItem := prismItem.(recommendation := finding.recommendationText);
      prismItem := prismItem.(clientDefinedRiskRating := InspectorRatingToPrism(finding.severity));
      prismItem := prismItem.(originalRiskRating := InspectorRatingToPrism(finding.severity));

      if Contains(finding.vulnerabilityId, CvePrefix) {
        prismItem := prismItem.(cves := prismItem.cves + [finding.vulnerabilityId]);
      }

      var prismHost := PrismHost("");
      if finding.resources[0].repositoryName != "" {
        prismHost := prismHost.(name := finding.resources[0].repositoryName);
      }
      if finding.resources[0].keyName != "" {
        prismHost := prismHost.(name := finding.resources[0].tagName);
      }

      prismItem := prismItem.(affectedHosts := prismItem.affectedHosts + [prismHost]);
      prismFile := prismFile.(issues := prismFile.issues + [prismItem]);
      k := k + 1;
    }
  }
}
