# Inspector to Prism, in Dafny

This project models the finding mapper of `inspector-to-prism`, a small Go
program that converts an AWS Inspector findings report into a Prism issues
report. The mapper walks the report's `Findings` in order and builds one Prism
issue per finding:

- it copies the title, description and remediation text;
- it normalises the Inspector severity into a Prism rating and writes it into
  both rating fields;
- it lists the vulnerability id as a CVE when the id contains `CVE-`;
- it names exactly one affected host from the finding's first resource.

The report it produces always has version 1.

Two modules:

- `GoStrings` (`go_strings.dfy`) models `strings.Contains`. It is a recursive
  function, and it is proved equal to an existential substring predicate
  `Occurs`.
- `Mapper` (`mapper.dfy`) holds the rest:
  - the record types of both reports, as datatypes, since the Go structs are
    plain values;
  - the severity switch `InspectorRatingToPrism`, as a function;
  - a per-finding specification `FindingToIssue` and its lift to whole reports,
    `PrismReport`;
  - lemmas stating what each issue promises;
  - the method `InspectorToPrism`, which has the source's own loop. Its
    postcondition says it produces exactly `PrismReport` of its input.

Naming: the source spells the input root type `InsepctorBaseFile`; here it is
`InspectorBaseFile`. The source nests some fields in anonymous structs. Here
those fields are flattened:

- `PackageVulnerabilityDetails.VulnerabilityId` becomes `vulnerabilityId`;
- `Remediation.Recommendation.Text` becomes `recommendationText`;
- a resource's `Details.AwsEcrContainerImage.RepositoryName`,
  `Details.AwsEc2Instance.KeyName` and `Tags.Name` become `repositoryName`,
  `keyName` and `tagName`.

Two behaviours of the code are kept as written:

- **Host name.** The code uses two independent `if`s (main.go:112-118). When
  the first resource's key name is non-empty, the host name is its `Name` tag,
  and that overwrites a repository name set by the first `if`.
- **Findings with no resources.** The code indexes `Resources[0]` without a
  check (main.go:112), so such a finding makes Go panic. The model therefore
  requires every finding to have at least one resource
  (`EveryFindingHasResource`).

## Model

| member | source | states |
|---|---|---|
| `Mapper.InspectorRatingToPrism` | main.go:127-143 | The result is always one of `Info`, `Low`, `Medium`, `High`, `Critical`. It is `Low`, `Medium`, `High` or `Critical` exactly when the severity is `LOW`, `MEDIUM`, `HIGH` or `CRITICAL`. It is `Info` for every other string. |
| `Mapper.RatingIsTableLookup` | main.go:127-143 | The switch equals a lookup in the fixed table `UNTRIAGED→Info, LOW→Low, MEDIUM→Medium, HIGH→High, CRITICAL→Critical`, with `Info` for any severity not in the table. |
| `Mapper.RatingIsCaseSensitive` | main.go:128-142 | Matching is exact and case-sensitive: `low` and `Critical` are not recognised and give `Info`. The body-less `INFORMATIONAL` case also gives `Info`. |
| `GoStrings.Contains` | main.go:106 | `strings.Contains(s, sub)` is true exactly when `sub` occurs in `s` at some index. |
| `Mapper.CvesOf` | main.go:106-108 | The CVE list has at most one entry. It is `[id]` exactly when the id contains `CVE-`, and empty exactly when it does not. |
| `Mapper.CvesOfExamples` | main.go:106-108 | `CVE-2023-12345` is kept as the only CVE; the empty id gives no CVE. |
| `Mapper.FindingsToIssues` | main.go:98-122 | There is one issue per finding, and issue `i` is the one built from finding `i`. |
| `Mapper.PrismReport` | main.go:94-125 | The report's version is 1, and it has as many issues as the input has findings. |
| `Mapper.IssueCopiesFinding` | main.go:100-104 | Issue `i` has finding `i`'s title as its name, its description as its finding and its remediation text as its recommendation. Its original and client-defined ratings are equal; both are the normalised severity, which is a valid Prism rating. |
| `Mapper.IssueCves` | main.go:106-108 | Issue `i`'s CVE list has at most one entry. It is `[VulnerabilityId]` exactly when the id contains `CVE-`, and empty otherwise. |
| `Mapper.HostName` | main.go:110-118 | The host name from one resource: the `Name` tag when the key name is non-empty, even if a repository name is set; else the repository name when that is non-empty; else the empty string. |
| `Mapper.IssueHost` | main.go:110-120 | Issue `i` has exactly one affected host, named from the first resource. A non-empty key name selects the `Name` tag, even if a repository name is set. Otherwise a non-empty repository name is used. Otherwise the name is empty. |
| `Mapper.OnlyFirstResourceMatters` | main.go:112-118 | Two findings that differ only in resources after the first give the same issue. |
| `Mapper.FindingsToIssuesAppend` | main.go:98-122 | The mapping is applied finding by finding, in order: the issues of `a + b` are the issues of `a` followed by those of `b`. |
| `Mapper.InspectorToPrism` | main.go:94-125 | The imperative conversion returns exactly `PrismReport` of its input. It builds each issue field by field and names the host by two overwriting `if`s; all of the properties above therefore hold of its result. |

## Left out

- `main` (main.go:62-73): console output, JSON marshalling and writing `prism.json`. These are file I/O whose errors are ignored.
- `parseInspectorFile` (main.go:75-92): opening and reading `inspector.json` and JSON unmarshalling. These are I/O and library deserialisation; the model takes the parsed report as its input.
- JSON field tags and serialisation (main.go:44-59). Go's nil slices for `Cves` and `AffectedHosts` are modelled as empty sequences. The difference between `null` and `[]` in the JSON output is a property of the encoder, not of the mapping.
- The `Status` field (main.go:18). Nothing reads it.
- The Go panic on a finding with no resources is not modelled as a behaviour. `PrismReport` and `InspectorToPrism` require that every finding has a resource, which is exactly where the source would panic.
- Strings are modelled as sequences of Unicode characters, not as Go's byte strings. On the valid UTF-8 that JSON decoding produces, the substring test and the exact severity comparisons give the same answers either way.
