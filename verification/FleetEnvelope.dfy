/**
 From an agent's final message to a result envelope: src/agent/FleetWorkflows.ts.

 Candidates are read from the whole message, from its fenced blocks and, as a last resort, from
 balanced objects in plain text. A candidate is interpreted tolerantly and should end up
 inside the strict schema of `isFleetResultEnvelope`. It does, with one family of exceptions
 that `FindingsAreStrictIff` characterizes.
 */
module FleetEnvelope {
  import opened Wrappers

  // ---------------------------------------------------------------- JavaScript values

  /**
   What `JSON.parse` can give, and the built-in objects an object literal inherits. `kind` tells other
   numbers apart.
   */
  datatype Value =
    | Null
    | Bool(b: bool)
    | Integer(n: int)
    | OtherNumber(kind: nat)
    | String(s: string)
    | Array(items: seq<Value>)
    | Object(fields: map<string, Value>)
    | BuiltIn(rendered: string)

  /**
   Operations of the language and its library that are not modelled further. `render` is the
   conversion of an array or object to text, which may throw; `digits` that of a number.
   */
  datatype Library = Library(
    parse: string -> Option<Value>,
    trim: string -> string,
    lower: string -> string,
    render: Value -> Option<string>,
    digits: Value -> string,
    number: string -> Value,
    normalizeType: string -> string,
    pathKey: string -> string)

  /** `String(value)`, where `None` stands for `undefined`; the result is `None` when the conversion throws. */
  function StringOf(lib: Library, v: Option<Value>): Option<string> {
    match v
    case None => Some("undefined")
    case Some(String(s)) => Some(s)
    case Some(BuiltIn(rendered)) => Some(rendered)
    case Some(Null) => Some("null")
    case Some(Bool(b)) => Some(if b then "true" else "false")
    case Some(Array(_)) => lib.render(v.value)
    case Some(Object(_)) => lib.render(v.value)
    case Some(number) => Some(lib.digits(number))
  }

  predicate Converts(lib: Library, v: Option<Value>) {
    StringOf(lib, v).Some?
  }

  function Field(fields: map<string, Value>, name: string): Option<Value> {
    if name in fields then Some(fields[name]) else None
  }

  // ---------------------------------------------------------------- workspace paths

  function Slashes(path: string): (r: string)
    ensures |r| == |path|
    ensures forall i: nat | i < |path| :: r[i] == if path[i] == '\\' then '/' else path[i]
  {
    seq(|path|, i requires 0 <= i < |path| => if path[i] == '\\' then '/' else path[i])
  }

  predicate IsLetter(c: char) {
    'a' <= c <= 'z' || 'A' <= c <= 'Z'
  }

  /** Segment `..`, between slashes or the ends, begins at `i`. */
  predicate TraversesAt(path: string, i: nat) {
    && i + 2 <= |path| && path[i] == '.' && path[i + 1] == '.'
    && (i == 0 || path[i - 1] == '/')
    && (i + 2 == |path| || path[i + 2] == '/')
  }

  predicate Traverses(path: string) {
    exists i: nat :: i < |path| && TraversesAt(path, i)
  }

  predicate IsWorkspaceRelative(path: string) {
    var p := Slashes(path);
    && p != "" && p[0] != '/'
    && !(|p| >= 3 && IsLetter(p[0]) && p[1] == ':' && p[2] == '/')
    && !Traverses(p)
  }

  function StripTrailing(root: string): string {
    if root != "" && root[|root| - 1] == '/' then StripTrailing(root[..|root| - 1]) else root
  }

  function Drop(s: string, n: nat): string {
    if n <= |s| then s[n..] else ""
  }

  /** The path relative to the first root it lies under, if any. */
  function UnderRoot(lib: Library, candidate: string, roots: seq<string>): Option<string> {
    if roots == [] then None
    else
      var root := StripTrailing(Slashes(roots[0]));
      var relative := Drop(candidate, |root| + 1);
      if lib.pathKey(root) + "/" <= lib.pathKey(candidate) && IsWorkspaceRelative(relative) then Some(relative)
      else UnderRoot(lib, candidate, roots[1..])
  }

  function NormalizePath(lib: Library, raw: Option<Value>, roots: seq<string>): Option<string> {
    if raw.None? || !raw.value.String? || lib.trim(raw.value.s) == "" then None
    else
      var candidate := Slashes(lib.trim(raw.value.s));
      if IsWorkspaceRelative(candidate) then Some(candidate) else UnderRoot(lib, candidate, roots)
  }

  /** A path is kept only in workspace-relative form. */
  lemma {:induction false} UnderRootIsRelative(lib: Library, candidate: string, roots: seq<string>)
    ensures var r := UnderRoot(lib, candidate, roots); r.Some? ==> IsWorkspaceRelative(r.value)
  {
    if roots != [] {
      UnderRootIsRelative(lib, candidate, roots[1..]);
    }
  }

  // ---------------------------------------------------------------- severities

  const SEVERITIES := {"critical", "high", "medium", "low"}

  const SYNONYMS: map<string, string> := map[
    "critical" := "critical", "blocker" := "critical", "fatal" := "critical", "p0" := "critical",
    "high" := "high", "major" := "high", "error" := "high", "p1" := "high",
    "medium" := "medium", "moderate" := "medium", "warning" := "medium", "warn" := "medium", "p2" := "medium",
    "low" := "low", "minor" := "low", "info" := "low", "informational" := "low", "suggestion" := "low",
    "nit" := "low", "note" := "low", "style" := "low", "p3" := "low"]

  /** The two all-lower-case properties that every object literal inherits. */
  predicate IsInherited(key: string) {
    key == "constructor" || key == "__proto__"
  }

  /** `SEVERITY_SYNONYMS[key] ?? "medium"`: the lookup also finds inherited properties. */
  function SeverityFor(key: string): Value {
    if key in SYNONYMS then String(SYNONYMS[key])
    else if key == "constructor" then BuiltIn("function Object() { [native code] }")
    else if key == "__proto__" then BuiltIn("[object Object]")
    else String("medium")
  }

  function SeverityKey(lib: Library, item: map<string, Value>): string
    requires Converts(lib, Field(item, "severity"))
  {
    lib.lower(lib.trim(StringOf(lib, Field(item, "severity")).value))
  }

  predicate IsSeverity(lib: Library, v: Option<Value>) {
    StringOf(lib, v).Some? && StringOf(lib, v).value in SEVERITIES
  }

  lemma SeverityIsStrictIff(lib: Library, key: string)
    ensures IsSeverity(lib, Some(SeverityFor(key))) <==> !IsInherited(key)
  {
  }

  // ---------------------------------------------------------------- the strict schema

  predicate IsStrings(v: Value) {
    v.Array? && forall i: nat | i < |v.items| :: v.items[i].String?
  }

  predicate ArePaths(v: Value) {
    IsStrings(v) && forall i: nat | i < |v.items| :: v.items[i].String? && IsWorkspaceRelative(v.items[i].s)
  }

  predicate IsFinding(lib: Library, v: Value) {
    && v.Object?
    && IsSeverity(lib, Field(v.fields, "severity"))
    && "message" in v.fields && v.fields["message"].String?
    && ("path" in v.fields ==> v.fields["path"].String? && IsWorkspaceRelative(v.fields["path"].s))
    && ("line" in v.fields ==> v.fields["line"].Integer? && v.fields["line"].n > 0)
  }

  /** `isFleetResultEnvelope` */
  predicate IsEnvelope(lib: Library, v: Value) {
    && v.Object? && "type" in v.fields
    && var f := v.fields;
    || (f["type"] == String("text") && "text" in f && f["text"].String?)
    || (f["type"] == String("patch")
        && "summary" in f && f["summary"].String?
        && "files" in f && ArePaths(f["files"])
        && ("verification" in f ==> f["verification"].String?))
    || (f["type"] == String("verification")
        && "passed" in f && f["passed"].Bool?
        && "summary" in f && f["summary"].String?
        && ("screenshots" in f ==> ArePaths(f["screenshots"]))
        && ("logs" in f ==> IsStrings(f["logs"])))
    || (f["type"] == String("review_findings")
        && ("reviewedScope" in f ==> f["reviewedScope"].String?)
        && ("emptyDiff" in f ==> f["emptyDiff"].Bool?)
        && "findings" in f && f["findings"].Array?
        && forall i: nat | i < |f["findings"].items| :: IsFinding(lib, f["findings"].items[i]))
  }

  // ---------------------------------------------------------------- interpreting a candidate

  datatype Expected = Patch | Verification | ReviewFindings

  function TypeName(e: Expected): string {
    match e
    case Patch => "patch"
    case Verification => "verification"
    case ReviewFindings => "review_findings"
  }

  /**
   A finding the tolerant reader can use: an object with a message that is not blank and a severity that
   has a text.
   */
  predicate Usable(lib: Library, v: Value) {
    && v.Object?
    && "message" in v.fields && v.fields["message"].String?
    && lib.trim(v.fields["message"].s) != ""
    && Converts(lib, Field(v.fields, "severity"))
  }

  function LineOf(lib: Library, raw: Option<Value>): Option<int> {
    match raw
    case Some(Integer(n)) => if n > 0 then Some(n) else None
    case Some(String(s)) => (match lib.number(s) case Integer(n) => if n > 0 then Some(n) else None case _ => None)
    case _ => None
  }

  function Put(fields: map<string, Value>, name: string, v: Option<Value>): map<string, Value> {
    if v.Some? then fields[name := v.value] else fields
  }

  function NormalizeFinding(lib: Library, v: Value, roots: seq<string>): Value
    requires Usable(lib, v)
  {
    var path := NormalizePath(lib, Field(v.fields, "path"), roots);
    var line := LineOf(lib, Field(v.fields, "line"));
    var base := map["severity" := SeverityFor(SeverityKey(lib, v.fields)), "message" := v.fields["message"]];
    Object(Put(Put(base, "path", if path.Some? && path.value != "" then Some(String(path.value)) else None),
               "line", if line.Some? then Some(Integer(line.value)) else None))
  }

  function EmptyDiff(lib: Library, raw: Option<Value>): Option<Value> {
    match raw
    case Some(Bool(b)) => Some(Bool(b))
    case Some(String(s)) =>
      var word := lib.lower(lib.trim(s));
      if word == "true" || word == "yes" then Some(Bool(true))
      else if word == "false" || word == "no" then Some(Bool(false))
      else None
    case _ => None
  }

  predicate AllUsable(lib: Library, items: seq<Value>) {
    forall i: nat | i < |items| :: Usable(lib, items[i])
  }

  function Findings(lib: Library, items: seq<Value>, roots: seq<string>): (r: seq<Value>)
    requires AllUsable(lib, items)
    ensures |r| == |items| && forall i: nat | i < |items| :: r[i] == NormalizeFinding(lib, items[i], roots)
  {
    seq(|items|, i requires 0 <= i < |items| => NormalizeFinding(lib, items[i], roots))
  }

  function ReviewEnvelope(lib: Library, fields: map<string, Value>, findings: seq<Value>): Value {
    var base := map["type" := String("review_findings"), "findings" := Array(findings)];
    var scope := Field(fields, "reviewedScope");
    Object(Put(Put(base, "reviewedScope", if scope.Some? && scope.value.String? then scope else None),
               "emptyDiff", EmptyDiff(lib, Field(fields, "emptyDiff"))))
  }

  predicate TypeMatches(lib: Library, e: Expected, v: Value) {
    && v.Object?
    && "type" in v.fields && v.fields["type"].String?
    && lib.normalizeType(v.fields["type"].s) == TypeName(e)
  }

  /** `interpretFleetResultCandidate`: the envelope a parsed candidate stands for, if it is accepted. */
  function Interpret(lib: Library, e: Expected, v: Value, roots: seq<string>): Option<Value> {
    if !TypeMatches(lib, e, v) then
      None
    else if e == ReviewFindings then
      if "findings" in v.fields && v.fields["findings"].Array? && AllUsable(lib, v.fields["findings"].items)
      then Some(ReviewEnvelope(lib, v.fields, Findings(lib, v.fields["findings"].items, roots)))
      else None
    else
      var normalized := Object(v.fields["type" := String(TypeName(e))]);
      if IsEnvelope(lib, normalized) then Some(normalized) else None
  }

  /** The loop of `interpretReviewFindingsCandidate`; it stops at the first finding it cannot use. */
  method InterpretReviewFindings(lib: Library, v: Value, roots: seq<string>) returns (envelope: Option<Value>)
    requires TypeMatches(lib, ReviewFindings, v)
    ensures envelope == Interpret(lib, ReviewFindings, v, roots)
    ensures envelope.Some? <==>
            "findings" in v.fields && v.fields["findings"].Array? && AllUsable(lib, v.fields["findings"].items)
  {
    if "findings" !in v.fields || !v.fields["findings"].Array? {
      return None;
    }
    var items := v.fields["findings"].items;
    var findings := [];
    for i := 0 to |items|
      invariant AllUsable(lib, items[..i]) && findings == Findings(lib, items[..i], roots)
    {
      var item := items[i];
      if !item.Object? || "message" !in item.fields || !item.fields["message"].String?
         || lib.trim(item.fields["message"].s) == "" {
        assert !Usable(lib, items[i]);
        return None;
      }
      var severity := StringOf(lib, Field(item.fields, "severity"));
      if severity.None? {
        // The conversion throws, and the candidate is dropped.
        assert !Usable(lib, items[i]);
        return None;
      }
      assert items[..i + 1] == items[..i] + [item];
      findings := findings + [NormalizeFinding(lib, item, roots)];
    }
    assert items[..|items|] == items;
    return Some(ReviewEnvelope(lib, v.fields, findings));
  }

  // ---------------------------------------------------------------- the strict schema is met

  /** A finding whose severity names an inherited property. */
  predicate NamesInherited(lib: Library, v: Value) {
    v.Object? && Converts(lib, Field(v.fields, "severity")) && IsInherited(SeverityKey(lib, v.fields))
  }

  lemma FindingIsStrictIff(lib: Library, v: Value, roots: seq<string>)
    requires Usable(lib, v)
    ensures IsFinding(lib, NormalizeFinding(lib, v, roots)) <==> !NamesInherited(lib, v)
  {
    SeverityIsStrictIff(lib, SeverityKey(lib, v.fields));
    PathIsRelative(lib, Field(v.fields, "path"), roots);
    FindingFields(lib, v, roots);
  }

  lemma PathIsRelative(lib: Library, raw: Option<Value>, roots: seq<string>)
    ensures var r := NormalizePath(lib, raw, roots); r.Some? ==> IsWorkspaceRelative(r.value)
  {
    if raw.Some? && raw.value.String? {
      UnderRootIsRelative(lib, Slashes(lib.trim(raw.value.s)), roots);
    }
  }

  lemma FindingFields(lib: Library, v: Value, roots: seq<string>)
    requires Usable(lib, v)
    ensures var f := NormalizeFinding(lib, v, roots).fields;
      && Field(f, "severity") == Some(SeverityFor(SeverityKey(lib, v.fields)))
      && Field(f, "message") == Some(v.fields["message"])
      && ("path" in f ==> NormalizePath(lib, Field(v.fields, "path"), roots).Some?
                          && f["path"] == String(NormalizePath(lib, Field(v.fields, "path"), roots).value))
      && ("line" in f ==> f["line"].Integer? && f["line"].n > 0)
  {
  }

  /**
   An accepted review is strictly valid if and only if none of its findings gives, as its severity, the name of
   a property that the synonym table inherits.
   */
  lemma FindingsAreStrictIff(lib: Library, v: Value, roots: seq<string>)
    requires Interpret(lib, ReviewFindings, v, roots).Some?
    ensures IsEnvelope(lib, Interpret(lib, ReviewFindings, v, roots).value)
       <==> forall i: nat | i < |v.fields["findings"].items| :: !NamesInherited(lib, v.fields["findings"].items[i])
  {
    var items := v.fields["findings"].items;
    var findings := Findings(lib, items, roots);
    forall i: nat | i < |items|
      ensures IsFinding(lib, findings[i]) <==> !NamesInherited(lib, items[i])
    {
      FindingIsStrictIff(lib, items[i], roots);
    }
    var envelope := ReviewEnvelope(lib, v.fields, findings);
    assert envelope.fields["type"] == String("review_findings") && envelope.fields["findings"] == Array(findings);
  }

  /** Every accepted candidate has the expected type; patches and verifications are always strictly valid. */
  lemma AcceptedHasType(lib: Library, e: Expected, v: Value, roots: seq<string>)
    requires Interpret(lib, e, v, roots).Some?
    ensures var envelope := Interpret(lib, e, v, roots).value;
      && envelope.Object? && "type" in envelope.fields && envelope.fields["type"] == String(TypeName(e))
      && (e != ReviewFindings ==> IsEnvelope(lib, envelope))
  {
  }

  /** A severity without a text, such as `{"toString": null}`, costs the whole candidate. */
  lemma SeverityThatThrowsRejects(lib: Library, v: Value, roots: seq<string>, i: nat)
    requires v.Object? && "findings" in v.fields && v.fields["findings"].Array? && i < |v.fields["findings"].items|
    requires var item := v.fields["findings"].items[i];
      item.Object? && "severity" in item.fields && item.fields["severity"].Object?
          && lib.render(item.fields["severity"]).None?
    ensures Interpret(lib, ReviewFindings, v, roots).None?
  {
    assert !Usable(lib, v.fields["findings"].items[i]);
  }

  /** The exception is real: one finding with severity "constructor" gives an accepted, invalid envelope. */
  lemma ConstructorSeverityIsAcceptedButInvalid(lib: Library, roots: seq<string>)
    requires lib.normalizeType("review_findings") == "review_findings"
    requires lib.trim("constructor") == "constructor" && lib.lower("constructor") == "constructor"
    requires lib.trim("Leak") == "Leak"
    ensures var finding := Object(map["severity" := String("constructor"), "message" := String("Leak")]);
      var v := Object(map["type" := String("review_findings"), "findings" := Array([finding])]);
      && Interpret(lib, ReviewFindings, v, roots).Some?
      && !IsEnvelope(lib, Interpret(lib, ReviewFindings, v, roots).value)
  {
    var finding := Object(map["severity" := String("constructor"), "message" := String("Leak")]);
    var v := Object(map["type" := String("review_findings"), "findings" := Array([finding])]);
    assert AllUsable(lib, [finding]);
    assert SeverityKey(lib, finding.fields) == "constructor";
    FindingsAreStrictIff(lib, v, roots);
    assert NamesInherited(lib, v.fields["findings"].items[0]);
  }
}
