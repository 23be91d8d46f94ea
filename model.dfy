/**
 * The records the cascading-scans hook reads and writes: findings, the parent
 * scan, cascading rules and the scan definitions it generates.
 */
module Model {
  import opened Wrappers

  /** A scalar finding attribute; `Undefined` is a key present with value `undefined`. */
  datatype Value = Str(s: string) | Num(n: int) | Bool(b: bool) | Undefined

  type Attributes = map<string, Value>

  /** A label or annotation mapping of a Kubernetes resource. */
  type StringMap = map<string, string>

  /** One observation of a finished scan. */
  datatype Finding = Finding(
    name: string,
    category: string,
    attributes: Attributes,
    id: Option<string>)

  /** `spec.cascades` of a scan: the two inheritance switches (unset, true or false). */
  datatype CascadeSpec = CascadeSpec(
    inheritLabels: Option<bool>,
    inheritAnnotations: Option<bool>)

  /** The scan whose findings are being cascaded. */
  datatype ParentScan = ParentScan(
    name: string,
    labels: Option<StringMap>,
    annotations: Option<StringMap>,
    scanType: string,
    cascades: CascadeSpec)

  /** An entry of `scanSpec.env`: passed through untouched, never looked into. */
  type EnvVar(==)

  /** One element of `spec.matches.anyOf`: an optional category and the attributes to match. */
  datatype Clause = Clause(
    category: Option<string>,
    attributes: Attributes)

  /**
   * A CascadingRule. `scanLabels` and `scanAnnotations` default to `{}` when
   * the rule does not declare them, which is how they reach the definition.
   */
  datatype Rule = Rule(
    name: string,
    anyOf: seq<Clause>,
    scanType: string,
    parameters: seq<string>,
    env: Option<seq<EnvVar>>,
    scanLabels: StringMap,
    scanAnnotations: StringMap)

  /** What `getCascadingScans` returns per (finding, rule) that fires. */
  datatype ScanDefinition = ScanDefinition(
    name: string,
    scanType: string,
    parameters: seq<string>,
    cascades: CascadeSpec,
    generatedBy: string,
    env: Option<seq<EnvVar>>,
    scanLabels: StringMap,
    scanAnnotations: StringMap,
    finding: Finding)
}
