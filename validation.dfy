/** What the forms' zod schemas check, stated as predicates: the issues a
    parse reports, integer-valued numbers and the UUID shape. */
module Validation {

  import opened Options

  /** A chosen file; only its name is ever read. `z.instanceof(File)` holds
      exactly when one is present. */
  datatype FileRef = FileRef(name: string)

  /** Where an issue is attached: a top-level field, or a field of one row of
      an array field. */
  datatype Path = Top(field: string) | Row(array: string, index: nat, field: string)

  /** One entry of the parse's error list. */
  datatype Issue = Issue(path: Path, message: string)

  /** The message zod gives when `.int()` fails on a fractional number. */
  const NotAnInteger: string := "Expected integer, received float"

  /** The message zod gives when `.uuid()` fails without a custom message. */
  const InvalidUuid: string := "Invalid uuid"

  /** `.int()`: a coerced number with no fractional part. */
  predicate IsInteger(x: real) {
    x == x.Floor as real
  }

  /** The issues `.int().min(lo, message)` reports, in that order. */
  function IntMinIssues(path: Path, x: real, lo: int, message: string): (issues: seq<Issue>)
    ensures issues == [] <==> IsInteger(x) && x >= lo as real
    ensures forall k :: 0 <= k < |issues| ==> issues[k].path == path
    ensures !IsInteger(x) ==> issues[0] == Issue(path, NotAnInteger)
    ensures x < lo as real ==> issues[|issues| - 1] == Issue(path, message)
    ensures |issues| <= 2
  {
    (if IsInteger(x) then [] else [Issue(path, NotAnInteger)])
    + (if x < lo as real then [Issue(path, message)] else [])
  }

  /** `.min(lo, message)` on a string: fewer than `lo` characters is an issue. */
  function MinLengthIssues(path: Path, s: string, lo: nat, message: string): (issues: seq<Issue>)
    ensures issues == [] <==> |s| >= lo
    ensures issues != [] ==> issues == [Issue(path, message)]
  {
    if |s| < lo then [Issue(path, message)] else []
  }

  /** `.min(lo, message)` on a number. */
  function MinValueIssues(path: Path, x: real, lo: real, message: string): (issues: seq<Issue>)
    ensures issues == [] <==> x >= lo
    ensures issues != [] ==> issues == [Issue(path, message)]
  {
    if x < lo then [Issue(path, message)] else []
  }

  /** `z.instanceof(File, { message })`. */
  function FileIssues(path: Path, file: Option<FileRef>, message: string): (issues: seq<Issue>)
    ensures issues == [] <==> file.Some?
    ensures issues != [] ==> issues == [Issue(path, message)]
  {
    if file.None? then [Issue(path, message)] else []
  }

  /** An issue at a given field among a list of issues. */
  predicate HasIssueAt(issues: seq<Issue>, path: Path) {
    exists k :: 0 <= k < |issues| && issues[k].path == path
  }

  /** What pressing a form's submit button leads to. */
  datatype Outcome =
    | Rejected(issues: seq<Issue>)       // the schema rejects: the field errors are shown
    | NotSent(toast: string)             // the mutation threw before the request
    | Sent(succeeded: bool, toast: string)

  predicate IsHexDigit(c: char) {
    ('0' <= c <= '9') || ('a' <= c <= 'f') || ('A' <= c <= 'F')
  }

  /** Positions of the four dashes of `8-4-4-4-12`. */
  predicate IsDashPosition(i: int) {
    i == 8 || i == 13 || i == 18 || i == 23
  }

  /** zod's `.uuid()`: 32 hexadecimal digits in groups of 8-4-4-4-12 joined
      by dashes, either case. */
  predicate IsUuid(s: string) {
    && |s| == 36
    && forall i :: 0 <= i < 36 ==> (if IsDashPosition(i) then s[i] == '-' else IsHexDigit(s[i]))
  }

  /** The shape admits real identifiers and rejects the empty selection. */
  lemma UuidExamples()
    ensures IsUuid("123e4567-e89b-12d3-a456-426614174000")
    ensures !IsUuid("")
  {
    var u := "123e4567-e89b-12d3-a456-426614174000";
    forall i | 0 <= i < 36
      ensures if IsDashPosition(i) then u[i] == '-' else IsHexDigit(u[i])
    {
    }
  }
}
