/**
  The part of the zod schema library the project relies on: a string schema
  `z.string().min(a).max(b)` is a chain of length checks, and parsing an object
  collects one issue per failed check, field by field.
  Lengths are counted in characters.
 */
module StringSchema {

  /** One link of a `z.string()` chain. */
  datatype Check = MinLength(n: nat) | MaxLength(n: nat)

  /** What an issue reports: a failed length bound, or a failed format check. */
  datatype Code = TooSmall(minimum: nat) | TooBig(maximum: nat) | InvalidCuid | InvalidUrl(index: nat)

  /** A validation issue, tagged with the object field it belongs to. */
  datatype Issue = Issue(field: string, code: Code)

  predicate Passes(c: Check, s: string)
  {
    match c
    case MinLength(n) => |s| >= n
    case MaxLength(n) => |s| <= n
  }

  /** The schema `z.string().min(lo).max(hi)`. */
  function Between(lo: nat, hi: nat): seq<Check>
  {
    [MinLength(lo), MaxLength(hi)]
  }

  /** The checks of `checks` that `s` fails, in chain order. */
  function Failures(checks: seq<Check>, s: string): (r: seq<Check>)
    ensures |r| <= |checks|
    ensures forall c :: c in r <==> c in checks && !Passes(c, s)
    ensures r == [] <==> forall i :: 0 <= i < |checks| ==> Passes(checks[i], s)
  {
    if checks == [] then []
    else
      var rest := Failures(checks[1..], s);
      assert forall i :: 1 <= i < |checks| ==> checks[i] == checks[1..][i - 1];
      (if Passes(checks[0], s) then [] else [checks[0]]) + rest
  }

  function CodeOf(c: Check): Code
  {
    match c
    case MinLength(n) => TooSmall(n)
    case MaxLength(n) => TooBig(n)
  }

  /** The issues zod reports for field `field` holding `s` under the chain `checks`. */
  function StringIssues(field: string, checks: seq<Check>, s: string): (r: seq<Issue>)
    ensures r == [] <==> forall i :: 0 <= i < |checks| ==> Passes(checks[i], s)
    ensures forall i :: 0 <= i < |r| ==> r[i].field == field
    ensures |r| <= |checks|
  {
    var failed := Failures(checks, s);
    seq(|failed|, i requires 0 <= i < |failed| => Issue(field, CodeOf(failed[i])))
  }

  /** A `min(lo).max(hi)` chain reports nothing exactly when the length lies in [lo, hi]. */
  lemma BetweenPassesIff(field: string, lo: nat, hi: nat, s: string)
    ensures StringIssues(field, Between(lo, hi), s) == [] <==> lo <= |s| <= hi
  {
    var checks := Between(lo, hi);
    assert Passes(checks[0], s) <==> lo <= |s|;
    assert Passes(checks[1], s) <==> |s| <= hi;
  }
}
