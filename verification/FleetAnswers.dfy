/**
 What the tolerant reader of src/agent/FleetWorkflows.ts makes of each part of a candidate: which
 severity, path, line and scope a finding or a review ends up with, and which candidates are taken.
 The statements name the values themselves, not the functions that compute them.
 */
module FleetAnswers {
  import opened Wrappers
  import opened FleetEnvelope

  // ---------------------------------------------------------------- severities

  const CRITICAL := {"critical", "blocker", "fatal", "p0"}
  const HIGH := {"high", "major", "error", "p1"}
  const LOW := {"low", "minor", "info", "informational", "suggestion", "nit", "note", "style", "p3"}

  /** A word of the table has its severity; every other word is "medium", but for the two inherited names. */
  lemma SeverityAnswers(word: string)
    ensures word in CRITICAL ==> SeverityFor(word) == String("critical")
    ensures word in HIGH ==> SeverityFor(word) == String("high")
    ensures word in LOW ==> SeverityFor(word) == String("low")
    ensures word !in CRITICAL + HIGH + LOW + {"constructor", "__proto__"} ==> SeverityFor(word) == String("medium")
    ensures word == "constructor" || word == "__proto__" ==> SeverityFor(word).BuiltIn?
  {
  }

  /** A severity that is given as a word is trimmed and lower-cased first; one that is not given is "undefined". */
  lemma SeverityIsNormalized(lib: Library, item: map<string, Value>)
    ensures "severity" !in item ==>
              Converts(lib, Field(item, "severity")) && SeverityKey(lib, item) == lib.lower(lib.trim("undefined"))
    ensures "severity" in item ==>
              match item["severity"]
              case String(s) =>
                Converts(lib, Field(item, "severity")) && SeverityKey(lib, item) == lib.lower(lib.trim(s))
              case Bool(b) =>
                Converts(lib, Field(item, "severity"))
                && SeverityKey(lib, item) == lib.lower(lib.trim(if b then "true" else "false"))
              case Null =>
                Converts(lib, Field(item, "severity")) && SeverityKey(lib, item) == lib.lower(lib.trim("null"))
              case Integer(_) =>
                Converts(lib, Field(item, "severity"))
                && SeverityKey(lib, item) == lib.lower(lib.trim(lib.digits(item["severity"])))
              case Array(_) =>
                && (Converts(lib, Field(item, "severity")) <==> lib.render(item["severity"]).Some?)
                && (Converts(lib, Field(item, "severity")) ==>
                      SeverityKey(lib, item) == lib.lower(lib.trim(lib.render(item["severity"]).value)))
              case Object(_) =>
                && (Converts(lib, Field(item, "severity")) <==> lib.render(item["severity"]).Some?)
                && (Converts(lib, Field(item, "severity")) ==>
                      SeverityKey(lib, item) == lib.lower(lib.trim(lib.render(item["severity"]).value)))
              case _ => true
  {
  }

  // ---------------------------------------------------------------- paths

  predicate IsSlash(c: char) {
    c == '/' || c == '\\'
  }

  /** One of the segments between slashes of either kind is `..`. */
  predicate GoesUp(path: string) {
    exists i: nat :: i < |path| && GoesUpAt(path, i)
  }

  predicate GoesUpAt(path: string, i: nat) {
    && i + 2 <= |path| && path[i] == '.' && path[i + 1] == '.'
    && (i == 0 || IsSlash(path[i - 1]))
    && (i + 2 == |path| || IsSlash(path[i + 2]))
  }

  predicate HasDrive(path: string) {
    |path| >= 3 && ('a' <= path[0] <= 'z' || 'A' <= path[0] <= 'Z') && path[1] == ':' && IsSlash(path[2])
  }

  lemma SlashesKeepSegments(path: string)
    ensures Traverses(Slashes(path)) <==> GoesUp(path)
  {
    assert forall i: nat | i < |path| :: TraversesAt(Slashes(path), i) <==> GoesUpAt(path, i);
  }

  /** A path is workspace-relative exactly when it is not empty, not absolute on any platform, and never goes up. */
  lemma RelativeIff(path: string)
    ensures IsWorkspaceRelative(path) <==>
            path != "" && !IsSlash(path[0]) && !HasDrive(path) && !GoesUp(path)
  {
    SlashesKeepSegments(path);
    hide Traverses, GoesUp;
  }

  /** `stripped` is `root` with forward slashes and none at the end. */
  predicate IsStripped(root: string, stripped: string) {
    && |stripped| <= |root|
    && (stripped != "" ==> stripped[|stripped| - 1] != '/')
    && (forall i: nat | i < |stripped| :: stripped[i] == if root[i] == '\\' then '/' else root[i])
    && (forall i: nat | |stripped| <= i < |root| :: IsSlash(root[i]))
  }

  lemma {:induction false} StripsTrailing(root: string)
    ensures StripTrailing(root) <= root
    ensures var r := StripTrailing(root); r != "" ==> r[|r| - 1] != '/'
    ensures forall i: nat | |StripTrailing(root)| <= i < |root| :: root[i] == '/'
  {
    if root != "" && root[|root| - 1] == '/' {
      StripsTrailing(root[..|root| - 1]);
    }
  }

  /** The candidate lies under the root, and `relative` is the rest of it. */
  ghost predicate LiesUnder(lib: Library, candidate: string, root: string, relative: string) {
    exists stripped: string :: LiesUnderStripped(lib, candidate, root, stripped, relative)
  }

  predicate LiesUnderStripped(lib: Library, candidate: string, root: string, stripped: string, relative: string) {
    && IsStripped(root, stripped)
    && lib.pathKey(stripped) + "/" <= lib.pathKey(candidate)
    && relative == (if |stripped| + 1 <= |candidate| then candidate[|stripped| + 1..] else "")
    && IsWorkspaceRelative(relative)
  }

  lemma NotShorter(root: string, stripped: string, other: string)
    requires IsStripped(root, stripped) && IsStripped(root, other)
    ensures |other| <= |stripped|
  {
    if other != "" {
      assert !IsSlash(root[|other| - 1]);
    }
  }

  lemma LiesUnderIff(lib: Library, candidate: string, root: string, relative: string)
    ensures var stripped := StripTrailing(Slashes(root));
      LiesUnder(lib, candidate, root, relative) <==>
      && lib.pathKey(stripped) + "/" <= lib.pathKey(candidate)
      && relative == Drop(candidate, |stripped| + 1) && IsWorkspaceRelative(relative)
  {
    hide IsWorkspaceRelative;
    StripsTrailing(Slashes(root));
    var stripped := StripTrailing(Slashes(root));
    assert IsStripped(root, stripped);
    if LiesUnder(lib, candidate, root, relative) {
      var other: string :| LiesUnderStripped(lib, candidate, root, other, relative);
      NotShorter(root, stripped, other);
      NotShorter(root, other, stripped);
      assert other == stripped;
    }
    if lib.pathKey(stripped) + "/" <= lib.pathKey(candidate)
       && relative == Drop(candidate, |stripped| + 1) && IsWorkspaceRelative(relative) {
      assert LiesUnderStripped(lib, candidate, root, stripped, relative);
    }
  }

  /** The candidate lies under none of these roots. */
  ghost predicate UnderNone(lib: Library, candidate: string, roots: seq<string>) {
    forall i: nat, relative: string | i < |roots| :: !LiesUnder(lib, candidate, roots[i], relative)
  }

  /** Root `i` is the first that the candidate lies under. */
  ghost predicate FirstUnder(lib: Library, candidate: string, roots: seq<string>, relative: string, i: nat) {
    i < |roots| && LiesUnder(lib, candidate, roots[i], relative) && UnderNone(lib, candidate, roots[..i])
  }

  /** The first root that the candidate lies under gives the path; without one there is none. */
  lemma {:induction false} UnderRootAnswers(lib: Library, candidate: string, roots: seq<string>)
    ensures var r := UnderRoot(lib, candidate, roots);
      && (r.None? ==> UnderNone(lib, candidate, roots))
      && (r.Some? ==> exists i: nat :: FirstUnder(lib, candidate, roots, r.value, i))
  {
    hide LiesUnder, IsWorkspaceRelative, StripTrailing, Slashes;
    if roots != [] {
      var r := UnderRoot(lib, candidate, roots);
      forall relative
        ensures LiesUnder(lib, candidate, roots[0], relative) <==>
                r == Some(relative) && lib.pathKey(StripTrailing(Slashes(roots[0]))) + "/" <= lib.pathKey(candidate)
                && relative == Drop(candidate, |StripTrailing(Slashes(roots[0]))| + 1)
                && IsWorkspaceRelative(relative)
      {
        LiesUnderIff(lib, candidate, roots[0], relative);
      }
      if r.Some? && LiesUnder(lib, candidate, roots[0], r.value) {
        assert FirstUnder(lib, candidate, roots, r.value, 0);
      } else {
        UnderRootAnswers(lib, candidate, roots[1..]);
        if r.Some? {
          var i: nat :| FirstUnder(lib, candidate, roots[1..], r.value, i);
          assert roots[..i + 1] == [roots[0]] + roots[1..][..i];
          assert FirstUnder(lib, candidate, roots, r.value, i + 1);
        } else {
          assert roots == [roots[0]] + roots[1..];
        }
      }
    }
  }

  /** A path that is no text or blank is dropped, and a relative one is kept with forward slashes. */
  lemma PathAnswers(lib: Library, raw: Option<Value>, roots: seq<string>)
    ensures raw.None? || !raw.value.String? || lib.trim(raw.value.s) == "" ==> NormalizePath(lib, raw, roots) == None
    ensures raw.Some? && raw.value.String? && lib.trim(raw.value.s) != "" ==>
              NormalizePath(lib, raw, roots)
              == if IsWorkspaceRelative(lib.trim(raw.value.s)) then Some(Slashes(lib.trim(raw.value.s)))
                 else UnderRoot(lib, Slashes(lib.trim(raw.value.s)), roots)
  {
    if raw.Some? && raw.value.String? {
      var s := lib.trim(raw.value.s);
      assert Slashes(Slashes(s)) == Slashes(s);
    }
  }

  // ---------------------------------------------------------------- findings

  /** A finding keeps its message, takes the severity of its word, and has a path and a line only if they are usable. */
  lemma FindingAnswers(lib: Library, v: Value, roots: seq<string>)
    requires Usable(lib, v)
    ensures var r := NormalizeFinding(lib, v, roots);
      && r.Object? && r.fields.Keys <= {"severity", "message", "path", "line"}
      && Field(r.fields, "message") == Some(v.fields["message"])
      && Field(r.fields, "severity") == Some(SeverityFor(SeverityKey(lib, v.fields)))
      && (var path := NormalizePath(lib, Field(v.fields, "path"), roots);
          Field(r.fields, "path") == if path.Some? then Some(String(path.value)) else None)
      && Field(r.fields, "line") ==
         if "line" !in v.fields then None
         else match v.fields["line"]
              case Integer(n) => (if n > 0 then Some(Integer(n)) else None)
              case String(s) => (if lib.number(s).Integer? && lib.number(s).n > 0 then Some(lib.number(s)) else None)
              case _ => None
  {
    PathIsRelative(lib, Field(v.fields, "path"), roots);
  }

  /** Usable is an object with a message that is not blank, whatever else it holds, if its severity has a text. */
  lemma UsableIff(lib: Library, v: Value)
    ensures Usable(lib, v) <==>
            match v
            case Object(f) =>
              && "message" in f && f["message"].String? && lib.trim(f["message"].s) != ""
              && !("severity" in f && (f["severity"].Array? || f["severity"].Object?)
                   && lib.render(f["severity"]).None?)
            case _ => false
  {
  }

  // ---------------------------------------------------------------- whole candidates

  /** A candidate is an object whose type, once normalized, is the expected one. */
  predicate Announces(lib: Library, v: Value, name: string) {
    v.Object? && "type" in v.fields && v.fields["type"].String? && lib.normalizeType(v.fields["type"].s) == name
  }

  /**
   A review is taken exactly when it lists findings that are all usable. It then consists of the normalized
   findings in their order, the scope if that is a text, and the remark on an empty diff if it is one.
   */
  lemma ReviewAnswers(lib: Library, v: Value, roots: seq<string>)
    ensures var r := Interpret(lib, ReviewFindings, v, roots);
      && (r.Some? <==>
            && Announces(lib, v, "review_findings") && "findings" in v.fields && v.fields["findings"].Array?
            && forall i: nat | i < |v.fields["findings"].items| :: Usable(lib, v.fields["findings"].items[i]))
      && (r.Some? ==>
            && r.value.Object? && r.value.fields.Keys <= {"type", "findings", "reviewedScope", "emptyDiff"}
            && var f := r.value.fields;
            var items := v.fields["findings"].items;
            && Field(f, "type") == Some(String("review_findings"))
            && "findings" in f && f["findings"].Array? && |f["findings"].items| == |items|
            && (forall i: nat | i < |items| :: f["findings"].items[i] == NormalizeFinding(lib, items[i], roots))
            && Field(f, "reviewedScope") ==
               (if "reviewedScope" in v.fields && v.fields["reviewedScope"].String?
                then Some(v.fields["reviewedScope"]) else None)
            && Field(f, "emptyDiff") ==
               (if "emptyDiff" !in v.fields then None
                else match v.fields["emptyDiff"]
                     case Bool(b) => Some(Bool(b))
                     case String(s) =>
                       (if lib.lower(lib.trim(s)) in {"true", "yes"} then Some(Bool(true))
                        else if lib.lower(lib.trim(s)) in {"false", "no"} then Some(Bool(false))
                        else None)
                     case _ => None))
  {
    if Interpret(lib, ReviewFindings, v, roots).Some? {
      assert AllUsable(lib, v.fields["findings"].items);
    }
  }

  /** A list of texts that are all workspace-relative paths. */
  predicate ListsPaths(v: Value) {
    v.Array? && forall i: nat | i < |v.items| :: v.items[i].String? && IsWorkspaceRelative(v.items[i].s)
  }

  /** A patch is taken exactly when its fields have their types and its files are relative; only its type changes. */
  lemma PatchAnswers(lib: Library, v: Value, roots: seq<string>)
    ensures var r := Interpret(lib, Patch, v, roots);
      && (r.Some? <==>
            && Announces(lib, v, "patch")
            && "summary" in v.fields && v.fields["summary"].String?
            && "files" in v.fields && ListsPaths(v.fields["files"])
            && ("verification" in v.fields ==> v.fields["verification"].String?))
      && (r.Some? ==> r.value == Object(v.fields["type" := String("patch")]))
  {
  }

  lemma VerificationAnswers(lib: Library, v: Value, roots: seq<string>)
    ensures var r := Interpret(lib, Verification, v, roots);
      && (r.Some? <==>
            && Announces(lib, v, "verification")
            && "passed" in v.fields && v.fields["passed"].Bool?
            && "summary" in v.fields && v.fields["summary"].String?
            && ("screenshots" in v.fields ==> ListsPaths(v.fields["screenshots"]))
            && ("logs" in v.fields ==>
                  v.fields["logs"].Array?
                  && forall i: nat | i < |v.fields["logs"].items| :: v.fields["logs"].items[i].String?))
      && (r.Some? ==> r.value == Object(v.fields["type" := String("verification")]))
  {
  }

  /** Plain text is an envelope if it has a text; anything but the four types is none. */
  lemma TextOrNothing(lib: Library, v: Value)
    ensures v.Object? && Field(v.fields, "type") == Some(String("text")) ==>
              (IsEnvelope(lib, v) <==> "text" in v.fields && v.fields["text"].String?)
    ensures IsEnvelope(lib, v) ==>
              && v.Object? && "type" in v.fields
              && v.fields["type"] in
                 [String("text"), String("patch"), String("verification"), String("review_findings")]
  {
  }

  /** The severity, given as a text or as something that is converted to one, is one of the four. */
  predicate IsOneOfFour(lib: Library, v: Value) {
    var word :=
      if v.String? then Some(v.s)
      else if v.Array? || v.Object? then lib.render(v)
      else if v.Null? then Some("null")
      else if v.Bool? then Some(if v.b then "true" else "false")
      else if v.BuiltIn? then Some(v.rendered)
      else Some(lib.digits(v));
    word == Some("critical") || word == Some("high") || word == Some("medium") || word == Some("low")
  }

  predicate IsStrictFinding(lib: Library, v: Value) {
    && v.Object?
    && "severity" in v.fields && IsOneOfFour(lib, v.fields["severity"])
    && "message" in v.fields && v.fields["message"].String?
    && ("path" in v.fields ==> v.fields["path"].String? && IsWorkspaceRelative(v.fields["path"].s))
    && ("line" in v.fields ==> v.fields["line"].Integer? && v.fields["line"].n > 0)
  }

  /** What the strict schema asks of a review, in one formula. */
  lemma StrictReviewIff(lib: Library, f: map<string, Value>)
    requires Field(f, "type") == Some(String("review_findings"))
    ensures IsEnvelope(lib, Object(f)) <==>
            && ("reviewedScope" in f ==> f["reviewedScope"].String?)
            && ("emptyDiff" in f ==> f["emptyDiff"].Bool?)
            && "findings" in f && f["findings"].Array?
            && forall i: nat | i < |f["findings"].items| :: IsStrictFinding(lib, f["findings"].items[i])
  {
    if "findings" in f && f["findings"].Array? {
      forall i: nat | i < |f["findings"].items|
        ensures IsFinding(lib, f["findings"].items[i]) <==> IsStrictFinding(lib, f["findings"].items[i])
      {
      }
    }
  }
}
