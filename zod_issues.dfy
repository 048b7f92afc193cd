/** The failures a schema reports, as the schema library describes them:
    a path into the validated value and a message. The default message
    texts below are the library's own; the repository supplies its own
    texts for some checks (see UserSchemas). */
module ZodIssues {
  import opened Common
  import opened Strings
  import opened Errors

  /** One step of an issue's path: an object key or an array index. */
  datatype PathKey = Key(name: string) | Index(i: nat)

  datatype Issue = Issue(path: seq<PathKey>, message: string)

  /** The issues a field's result reports: none when it was accepted. */
  function IssuesOf<T>(r: Result<T, seq<Issue>>): seq<Issue>
  {
    if r.Err? then r.error else []
  }

  /** What parsing a value against a schema gives: the parsed value, the
      issues found, or an error of another kind raised while parsing. */
  datatype ParseOutcome = Parsed(value: Value) | Invalid(issues: seq<Issue>) | Crashed(error: Failure)

  /** The name the library gives to the type of a received value. */
  function TypeName(v: Value): string
  {
    match v
    case Undefined => "undefined"
    case Null => "null"
    case Bool(_) => "boolean"
    case Num(_) => "number"
    case Str(_) => "string"
    case Arr(_) => "array"
    case Obj(_) => "object"
  }

  /** The default message of a type mismatch. */
  function InvalidTypeMessage(expected: string, received: Value): (m: string)
    ensures received == Undefined <==> m == "Required"
  {
    if received == Undefined then "Required"
    else "Expected " + expected + ", received " + TypeName(received)
  }

  /** What a number check reports for `NaN`. */
  const NaNMessage: string := "Expected number, received nan"

  /** The default message of `.positive()`. */
  const NotPositiveMessage: string := "Number must be greater than 0"

  /** The default message of `.max(n)`. */
  function TooBigMessage(max: int): string
  {
    "Number must be less than or equal to " + IntToString(max)
  }

  /** The issues of a field's schema, moved under that field's key. */
  function AtKey(key: string, issues: seq<Issue>): (r: seq<Issue>)
    ensures |r| == |issues|
    ensures forall i :: 0 <= i < |r| ==>
      r[i].path == [Key(key)] + issues[i].path && r[i].message == issues[i].message
  {
    seq(|issues|, i requires 0 <= i < |issues| => Issue([Key(key)] + issues[i].path, issues[i].message))
  }

  /** A field's single issue at its own root ends up under the key. */
  lemma SingleIssueAtKey(key: string, message: string)
    ensures AtKey(key, [Issue([], message)]) == [Issue([Key(key)], message)]
  {
    assert [Key(key)] + [] == [Key(key)];
  }

  /** Every issue of a field's schema appears among `issues`, moved under
      the field's key. */
  predicate ReportedUnder(key: string, fieldIssues: seq<Issue>, issues: seq<Issue>)
  {
    forall i :: 0 <= i < |fieldIssues| ==> Issue([Key(key)] + fieldIssues[i].path, fieldIssues[i].message) in issues
  }

  /** A field's issues, moved under its key and placed anywhere in a
      report, are all reported. */
  lemma AtKeyIsReported(key: string, fieldIssues: seq<Issue>, before: seq<Issue>, after: seq<Issue>)
    ensures ReportedUnder(key, fieldIssues, before + AtKey(key, fieldIssues) + after)
  {
    var moved := AtKey(key, fieldIssues);
    var all := before + moved + after;
    forall i | 0 <= i < |fieldIssues|
      ensures Issue([Key(key)] + fieldIssues[i].path, fieldIssues[i].message) in all
    {
      assert all[|before| + i] == moved[i];
    }
  }

  /** Whatever is reported in part of a report is reported in the whole. */
  lemma ReportedInLonger(key: string, fieldIssues: seq<Issue>, before: seq<Issue>, part: seq<Issue>, after: seq<Issue>)
    requires ReportedUnder(key, fieldIssues, part)
    ensures ReportedUnder(key, fieldIssues, before + part + after)
  {
    forall i | 0 <= i < |fieldIssues|
      ensures Issue([Key(key)] + fieldIssues[i].path, fieldIssues[i].message) in before + part + after
    {
      var j :| 0 <= j < |part| && part[j] == Issue([Key(key)] + fieldIssues[i].path, fieldIssues[i].message);
      assert (before + part + after)[|before| + j] == part[j];
    }
  }

  /** A field that reports in one of two phases: when its early issues are
      reported among the early ones, and its late issues, moved under its
      key, are placed anywhere after them, all of its issues are reported. */
  lemma PhaseReported(key: string, early: seq<Issue>, late: seq<Issue>,
                      earlyReport: seq<Issue>, before: seq<Issue>, after: seq<Issue>)
    requires early == [] || late == []
    requires ReportedUnder(key, early, earlyReport)
    ensures ReportedUnder(key, early + late, earlyReport + (before + AtKey(key, late) + after))
  {
    var lateReport := before + AtKey(key, late) + after;
    if early == [] {
      assert early + late == late;
      AtKeyIsReported(key, late, earlyReport + before, after);
      assert earlyReport + before + AtKey(key, late) + after == earlyReport + lateReport;
    } else {
      assert early + late == early;
      ReportedInLonger(key, early, [], earlyReport, lateReport);
      assert [] + earlyReport + lateReport == earlyReport + lateReport;
    }
  }

  /** The report of four fields when the first two each report in one of
      two phases: the issues found while the fields are walked come first,
      in field order, and the first two fields' later issues follow. Every
      issue of each field appears under its key, and no other issue does. */
  lemma TwoPhaseReported(k1: string, early1: seq<Issue>, late1: seq<Issue>,
                         k2: string, early2: seq<Issue>, late2: seq<Issue>,
                         k3: string, i3: seq<Issue>, k4: string, i4: seq<Issue>)
    requires early1 == [] || late1 == []
    requires early2 == [] || late2 == []
    ensures var all := AtKey(k1, early1) + AtKey(k2, early2) + AtKey(k3, i3) + AtKey(k4, i4)
        + (AtKey(k1, late1) + AtKey(k2, late2));
      && ReportedUnder(k1, early1 + late1, all) && ReportedUnder(k2, early2 + late2, all)
      && ReportedUnder(k3, i3, all) && ReportedUnder(k4, i4, all)
      && |all| == |early1 + late1| + |early2 + late2| + |i3| + |i4|
  {
    var early := AtKey(k1, early1) + AtKey(k2, early2) + AtKey(k3, i3) + AtKey(k4, i4);
    var a, b := AtKey(k1, late1), AtKey(k2, late2);
    var none: seq<Issue> := [];
    FourFieldsReported(k1, early1, k2, early2, k3, i3, k4, i4);
    PhaseReported(k1, early1, late1, early, none, b);
    assert none + a + b == a + b;
    PhaseReported(k2, early2, late2, early, a, none);
    assert a + b + none == a + b;
    ReportedInLonger(k3, i3, none, early, a + b);
    ReportedInLonger(k4, i4, none, early, a + b);
    assert none + early + (a + b) == early + (a + b);
  }

  /** The issues of four fields, each moved under its key and reported one
      field after the other: all of them, and no other. */
  lemma FourFieldsReported(k1: string, i1: seq<Issue>, k2: string, i2: seq<Issue>,
                           k3: string, i3: seq<Issue>, k4: string, i4: seq<Issue>)
    ensures var all := AtKey(k1, i1) + AtKey(k2, i2) + AtKey(k3, i3) + AtKey(k4, i4);
      && ReportedUnder(k1, i1, all) && ReportedUnder(k2, i2, all)
      && ReportedUnder(k3, i3, all) && ReportedUnder(k4, i4, all)
      && |all| == |i1| + |i2| + |i3| + |i4|
  {
    var a, b, c, d := AtKey(k1, i1), AtKey(k2, i2), AtKey(k3, i3), AtKey(k4, i4);
    AtKeyIsReported(k1, i1, [], b + c + d);
    assert [] + a + (b + c + d) == a + b + c + d;
    AtKeyIsReported(k2, i2, a, c + d);
    assert a + b + (c + d) == a + b + c + d;
    AtKeyIsReported(k3, i3, a + b, d);
    AtKeyIsReported(k4, i4, a + b + c, []);
    assert a + b + c + d + [] == a + b + c + d;
  }
}
