/** Go's `error` values as the collectors see them. */
module Errors {

  datatype Option<+T> = None | Some(value: T) {
    /** The value as a sequence of at most one element. */
    function ToSeq(): (s: seq<T>)
      ensures |s| <= 1 && (s == [] <==> None?)
    {
      if Some? then [value] else []
    }
  }

  /** An error: `context.DeadlineExceeded`, or any other error, known by its text. */
  datatype Err = Deadline | Other(msg: string) {
    /** What `err.Error()` returns. */
    function Text(): string {
      match this
      case Deadline => "context deadline exceeded"
      case Other(m) => m
    }
  }

  /** A value-or-error pair `(T, error)` where the value is meaningless on error. */
  datatype Result<+T> = Ok(value: T) | Fail(err: Err)

  /** `fmt.Errorf(prefix + "%v", e)`: the new error carries the old one's text only. */
  function Wrap(prefix: string, e: Err): (r: Err)
    ensures r.Other? && r.Text() == prefix + e.Text()
  {
    Other(prefix + e.Text())
  }

  /** `%q` on a string without characters that need escaping. */
  function Quote(s: string): string {
    "\"" + s + "\""
  }

  /** The error of the first step of a sequence that failed, each step running
      only when the ones before it succeeded; `None` when none failed. */
  function FirstError(steps: seq<Option<Err>>): (r: Option<Err>)
    ensures r.None? <==> forall k :: 0 <= k < |steps| ==> steps[k].None?
    ensures r.Some? ==> exists k :: 0 <= k < |steps| && r == steps[k] && forall j :: 0 <= j < k ==> steps[j].None?
  {
    if steps == [] then None
    else if steps[0].Some? then steps[0]
    else
      var r := FirstError(steps[1..]);
      assert r.Some? ==> exists k :: 1 <= k < |steps| && r == steps[k] && forall j :: 0 <= j < k ==> steps[j].None?;
      r
  }

  /** A step that failed after all steps before it succeeded is the one reported. */
  lemma {:induction false} FirstErrorIsFirst(steps: seq<Option<Err>>, k: nat)
    requires k < |steps| && steps[k].Some?
    requires forall j :: 0 <= j < k ==> steps[j].None?
    ensures FirstError(steps) == steps[k]
  {
    if k > 0 {
      FirstErrorIsFirst(steps[1..], k - 1);
    }
  }
}
