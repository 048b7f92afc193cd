/** The validation middleware: parse one source of the request against a
    schema, replace that source with the parsed value, or turn the schema's
    issues into a single 400 failure. */
module Validation {
  import opened Common
  import opened Strings
  import opened JsonText
  import opened Errors
  import opened ZodIssues
  import opened Requests

  /** An issue as it is reported to the client. */
  datatype FormattedIssue = FormattedIssue(path: string, message: string)

  function PathKeyText(k: PathKey): string
  {
    match k
    case Key(name) => name
    case Index(i) => NatToString(i)
  }

  function PathKeyTexts(path: seq<PathKey>): (r: seq<string>)
    ensures |r| == |path|
    ensures forall i :: 0 <= i < |path| ==> r[i] == PathKeyText(path[i])
  {
    seq(|path|, i requires 0 <= i < |path| => PathKeyText(path[i]))
  }

  /** `err.path.join('.')`: empty only for the path of the value itself
      (or a single empty key). */
  function PathText(path: seq<PathKey>): (r: string)
    ensures r == "" <==> |path| == 0 || (|path| == 1 && PathKeyText(path[0]) == "")
  {
    Join(PathKeyTexts(path), '.')
  }

  /** A non-empty path whose keys have no dot can be recovered from its
      text by splitting at the dots. */
  lemma PathTextSplits(path: seq<PathKey>)
    requires |path| >= 1
    requires forall i :: 0 <= i < |path| ==> path[i].Key? ==> '.' !in path[i].name
    ensures Split(PathText(path), '.') == PathKeyTexts(path)
  {
    var texts := PathKeyTexts(path);
    forall i | 0 <= i < |texts| ensures '.' !in texts[i] {
      if path[i].Index? {
        var t := NatToString(path[i].i);
        assert forall j :: 0 <= j < |t| ==> IsDigit(t[j]);
      }
    }
    SplitJoin(texts, '.');
  }

  /** The issues in the form the client sees, one per issue, in order. */
  function Format(issues: seq<Issue>): (r: seq<FormattedIssue>)
    ensures |r| == |issues|
    ensures forall i :: 0 <= i < |issues| ==>
      r[i].path == PathText(issues[i].path) && r[i].message == issues[i].message
  {
    seq(|issues|, i requires 0 <= i < |issues| => FormattedIssue(PathText(issues[i].path), issues[i].message))
  }

  // ---------------------------------------------------------------------
  // JSON.stringify of the formatted issues

  const ItemOpen: string := "{\"path\":"
  const ItemMiddle: string := ",\"message\":"

  /** `JSON.stringify({path, message})`. */
  function StringifyIssue(f: FormattedIssue): string
  {
    ItemOpen + Quote(f.path) + ItemMiddle + Quote(f.message) + "}"
  }

  /** The items after the first, each preceded by a comma. */
  function StringifyRest(fs: seq<FormattedIssue>): string
    decreases |fs|
  {
    if |fs| == 0 then "" else "," + StringifyIssue(fs[0]) + StringifyRest(fs[1..])
  }

  /** `JSON.stringify(fs)` for an array of formatted issues. */
  function StringifyIssues(fs: seq<FormattedIssue>): string
  {
    if |fs| == 0 then "[]" else "[" + StringifyIssue(fs[0]) + StringifyRest(fs[1..]) + "]"
  }

  const MessagePrefix: string := "Validation error: "

  // ---------------------------------------------------------------------
  // Reading the array back

  /** Reads one `{"path":…,"message":…}` object at the start of `s`. */
  function ReadItem(s: string): (r: Option<(FormattedIssue, string)>)
    ensures r.Some? ==> |r.value.1| < |s|
  {
    if !StartsWith(s, ItemOpen) then None
    else
      match ReadString(s[|ItemOpen|..])
      case None => None
      case Some((path, s1)) =>
        if !StartsWith(s1, ItemMiddle) then None
        else
          match ReadString(s1[|ItemMiddle|..])
          case None => None
          case Some((message, s2)) =>
            if |s2| > 0 && s2[0] == '}' then Some((FormattedIssue(path, message), s2[1..])) else None
  }

  /** Reads what follows an item: `]` at the very end, or a comma and more
      items. */
  function ReadRest(s: string): Option<seq<FormattedIssue>>
    decreases |s|
  {
    if s == "]" then Some([])
    else if |s| > 0 && s[0] == ',' then
      match ReadItem(s[1..])
      case None => None
      case Some((f, rest)) =>
        match ReadRest(rest)
        case None => None
        case Some(fs) => Some([f] + fs)
    else None
  }

  /** Reads a whole JSON array of formatted issues. */
  function ReadIssues(s: string): Option<seq<FormattedIssue>>
  {
    if s == "[]" then Some([])
    else if |s| > 0 && s[0] == '[' then
      match ReadItem(s[1..])
      case None => None
      case Some((f, rest)) =>
        match ReadRest(rest)
        case None => None
        case Some(fs) => Some([f] + fs)
    else None
  }

  /** `ReadItem` succeeds when each of its steps does. */
  lemma ReadItemSteps(s: string, path: string, s1: string, message: string, s2: string)
    requires StartsWith(s, ItemOpen) && ReadString(s[|ItemOpen|..]) == Some((path, s1))
    requires StartsWith(s1, ItemMiddle) && ReadString(s1[|ItemMiddle|..]) == Some((message, s2))
    requires |s2| > 0 && s2[0] == '}'
    ensures ReadItem(s) == Some((FormattedIssue(path, message), s2[1..]))
  {
  }

  lemma ReadItemOfStringify(f: FormattedIssue, rest: string)
    ensures ReadItem(StringifyIssue(f) + rest) == Some((f, rest))
  {
    var afterMessage := "}" + rest;
    var afterPath := ItemMiddle + (Quote(f.message) + afterMessage);
    var s := ItemOpen + (Quote(f.path) + afterPath);
    Regroup(ItemOpen + Quote(f.path) + ItemMiddle, Quote(f.message), "}", rest);
    Regroup(ItemOpen, Quote(f.path), ItemMiddle, Quote(f.message) + afterMessage);
    assert StringifyIssue(f) + rest == s;
    PrefixThenRest(ItemOpen, Quote(f.path) + afterPath);
    ReadQuote(f.path, afterPath);
    PrefixThenRest(ItemMiddle, Quote(f.message) + afterMessage);
    ReadQuote(f.message, afterMessage);
    assert afterMessage[0] == '}' && afterMessage[1..] == rest;
    ReadItemSteps(s, f.path, afterPath, f.message, afterMessage);
  }

  /** An item written after a comma is read, and reading goes on after it. */
  lemma ReadRestStep(f: FormattedIssue, t: string, fs: seq<FormattedIssue>)
    requires ReadRest(t) == Some(fs)
    ensures ReadRest("," + (StringifyIssue(f) + t)) == Some([f] + fs)
  {
    var s := "," + (StringifyIssue(f) + t);
    assert s[0] == ',' && s[1..] == StringifyIssue(f) + t && s != "]";
    ReadItemOfStringify(f, t);
  }

  lemma StringifyRestFirst(fs: seq<FormattedIssue>)
    requires |fs| > 0
    ensures StringifyRest(fs) + "]" == "," + (StringifyIssue(fs[0]) + (StringifyRest(fs[1..]) + "]"))
  {
    Regroup(",", StringifyIssue(fs[0]), StringifyRest(fs[1..]), "]");
  }

  lemma {:induction false} ReadRestOfStringify(fs: seq<FormattedIssue>)
    ensures ReadRest(StringifyRest(fs) + "]") == Some(fs)
    decreases |fs|
  {
    if |fs| > 0 {
      var t := StringifyRest(fs[1..]) + "]";
      StringifyRestFirst(fs);
      ReadRestOfStringify(fs[1..]);
      ReadRestStep(fs[0], t, fs[1..]);
      assert [fs[0]] + fs[1..] == fs;
    }
  }

  /** The first item of a non-empty array is read after the bracket. */
  lemma ReadIssuesStep(f: FormattedIssue, t: string, fs: seq<FormattedIssue>)
    requires ReadRest(t) == Some(fs)
    ensures ReadIssues("[" + (StringifyIssue(f) + t)) == Some([f] + fs)
  {
    var x := StringifyIssue(f);
    var s := "[" + (x + t);
    assert s[0] == '[' && s[1..] == x + t;
    assert s != "[]" by {
      assert s[1] == x[0] == '{';
    }
    ReadItemOfStringify(f, t);
  }

  lemma StringifyIssuesFirst(fs: seq<FormattedIssue>)
    requires |fs| > 0
    ensures StringifyIssues(fs) == "[" + (StringifyIssue(fs[0]) + (StringifyRest(fs[1..]) + "]"))
  {
    Regroup("[", StringifyIssue(fs[0]), StringifyRest(fs[1..]), "]");
  }

  /** The serialised issue array reads back as exactly the formatted issues,
      in order. */
  lemma ReadIssuesOfStringify(fs: seq<FormattedIssue>)
    ensures ReadIssues(StringifyIssues(fs)) == Some(fs)
  {
    if |fs| > 0 {
      var t := StringifyRest(fs[1..]) + "]";
      StringifyIssuesFirst(fs);
      ReadRestOfStringify(fs[1..]);
      ReadIssuesStep(fs[0], t, fs[1..]);
      assert [fs[0]] + fs[1..] == fs;
    }
  }

  /** The message of the 400 failure a schema's issues become: the prefix,
      then a JSON array that reads back as one `{path, message}` object per
      issue, in the schema's order. */
  function ValidationMessage(issues: seq<Issue>): (m: string)
    ensures StartsWith(m, MessagePrefix)
    ensures ReadIssues(m[|MessagePrefix|..]) == Some(Format(issues))
  {
    var m := MessagePrefix + StringifyIssues(Format(issues));
    PrefixThenRest(MessagePrefix, StringifyIssues(Format(issues)));
    ReadIssuesOfStringify(Format(issues));
    m
  }

  // ---------------------------------------------------------------------
  // The middleware

  /** `validate(schema, source)(req, res, next)`. The result is what is
      passed to `next`: `None` for `next()`. `schema` is the schema's parse
      function; `source` defaults to the body; `trace` is the stack trace
      the runtime gives the `AppError` built here. */
  method Validate(req: Request, schema: Value -> ParseOutcome, trace: Option<string>, source: Source := Body)
    returns (next: Option<Failure>)
    modifies req
    ensures req.authorization == old(req.authorization)
    ensures req.firebaseUser == old(req.firebaseUser)
    ensures forall s :: s != source ==> req.Get(s) == old(req.Get(s))
    ensures match schema(old(req.Get(source)))
      case Parsed(v) => next.None? && req.Get(source) == v
      case Invalid(issues) =>
        next == Some(AppError(ValidationMessage(issues), 400, trace)) && req.Get(source) == old(req.Get(source))
      case Crashed(e) => next == Some(e) && req.Get(source) == old(req.Get(source))
  {
    var outcome := schema(req.Get(source));
    match outcome
    case Parsed(data) =>
      req.Set(source, data);
      next := None;
    case Invalid(issues) =>
      var formattedErrors := Format(issues);
      next := Some(AppError(MessagePrefix + StringifyIssues(formattedErrors), 400, trace));
    case Crashed(error) =>
      next := Some(error);
  }
}
