/**
 * validator (packages/service/utils/validator.ts): runs a schema over a
 * request body and turns a Zod failure into one message. Schema parsing
 * itself is abstract: its outcome is a parameter.
 */
module Validator {

  import opened Wrappers
  import opened Strings

  /** One element of a Zod issue path: an object key or an array index. */
  datatype PathKey = KeyName(name: string) | KeyIndex(index: nat)

  datatype Issue = Issue(code: string, path: seq<PathKey>, message: string)

  /** What `schema.parse(body)` did: returned a value, threw a `ZodError`, or threw something else. */
  datatype ParseOutcome<T> = Parsed(value: T) | ZodFailure(issues: seq<Issue>) | OtherFailure

  /** `{ success, data, error }`, with `error: null` as `None`. */
  datatype ValidatorResult<T> = ValidatorResult(success: bool, data: T, error: Option<string>)

  /** `String(key)` as `Array.prototype.join` renders a path element. */
  function KeyText(k: PathKey): string {
    match k
    case KeyName(n) => n
    case KeyIndex(i) => NatToString(i)
  }

  function KeyTexts(path: seq<PathKey>): (ts: seq<string>)
    ensures |ts| == |path|
    ensures forall i :: 0 <= i < |path| ==> ts[i] == KeyText(path[i])
  {
    if path == [] then [] else [KeyText(path[0])] + KeyTexts(path[1..])
  }

  /** `issue.path.join('.')`. */
  function FieldName(path: seq<PathKey>): string {
    Join(KeyTexts(path), ".")
  }

  function IssueMessage(issue: Issue): (m: string)
    ensures issue.code == "invalid_type" ==> m == "Missing Field: " + FieldName(issue.path)
    ensures issue.code != "invalid_type" && FieldName(issue.path) != "" ==>
      m == "Invalid Field: " + FieldName(issue.path) + " -> " + issue.message
    ensures issue.code != "invalid_type" && FieldName(issue.path) == "" ==> m == issue.message
  {
    var field := FieldName(issue.path);
    if issue.code == "invalid_type" then "Missing Field: " + field
    else (if field != "" then "Invalid Field: " + field + " -> " else "") + issue.message
  }

  function IssueMessages(issues: seq<Issue>): (ms: seq<string>)
    ensures |ms| == |issues|
    ensures forall i :: 0 <= i < |issues| ==> ms[i] == IssueMessage(issues[i])
  {
    if issues == [] then [] else [IssueMessage(issues[0])] + IssueMessages(issues[1..])
  }

  const ValidationFailed := "Validation failed"

  function Validate<T>(body: T, outcome: ParseOutcome<T>): (r: ValidatorResult<T>)
    ensures r.success <==> outcome.Parsed?
    ensures r.success ==> r.data == outcome.value && r.error.None?
    ensures !r.success ==> r.data == body && r.error.Some?
    ensures outcome.ZodFailure? ==> r.error == Some(Join(IssueMessages(outcome.issues), ", "))
    ensures outcome.OtherFailure? ==> r.error == Some(ValidationFailed)
  {
    match outcome
    case Parsed(v) => ValidatorResult(true, v, None)
    case ZodFailure(issues) => ValidatorResult(false, body, Some(Join(IssueMessages(issues), ", ")))
    case OtherFailure => ValidatorResult(false, body, Some(ValidationFailed))
  }

  /** A single issue is reported on its own. */
  lemma SingleIssueMessage<T>(body: T, issue: Issue)
    ensures Validate(body, ZodFailure([issue])).error == Some(IssueMessage(issue))
  {
  }

  /** Messages are listed in issue order, separated by `, `. */
  lemma IssuesInOrder<T>(body: T, first: Issue, rest: seq<Issue>)
    requires rest != []
    ensures Validate(body, ZodFailure([first] + rest)).error
         == Some(IssueMessage(first) + ", " + Join(IssueMessages(rest), ", "))
  {
    assert IssueMessages([first] + rest) == [IssueMessage(first)] + IssueMessages(rest);
    assert |IssueMessages([first] + rest)| >= 2;
    assert IssueMessages([first] + rest)[1..] == IssueMessages(rest);
  }

  /**
   * The field name is empty exactly for the empty path and the path made
   * of one empty key, so only those lose the `Invalid Field:` prefix.
   */
  lemma FieldNameEmptyIff(path: seq<PathKey>)
    ensures FieldName(path) == "" <==> (path == [] || path == [KeyName("")])
  {
    JoinEmptyIff(KeyTexts(path), ".");
    if |path| == 1 {
      if path[0].KeyIndex? {
        assert |KeyText(path[0])| >= 1;
      }
    }
  }

  /** A path of dot-free names is recovered by splitting its field name at the dots. */
  lemma FieldNameRoundTrip(path: seq<PathKey>)
    requires path != []
    requires forall i :: 0 <= i < |path| ==> '.' !in KeyText(path[i])
    ensures Split(FieldName(path), '.') == KeyTexts(path)
  {
    SplitJoinRoundTrip(KeyTexts(path), '.');
  }

  /** Index elements never contain a dot, so only key names can break the round trip. */
  lemma IndexHasNoDot(i: nat)
    ensures '.' !in KeyText(KeyIndex(i))
  {
    var t := NatToString(i);
    assert forall k :: 0 <= k < |t| ==> IsDigit(t[k]);
  }
}
