/**
 * An auth form is validated by an ordered chain of checks, each with the
 * message shown when it fails; the handler returns at the first failing
 * check, and a request is issued only when every check passes.
 */
module Validation {
  import opened Wrappers

  datatype Check = Check(passes: bool, message: string)

  /** The position of the first failing check, or `|checks|` when all pass. */
  function FirstFailureIndex(checks: seq<Check>): (k: nat)
    ensures k <= |checks|
    ensures forall j :: 0 <= j < k ==> checks[j].passes
    ensures k < |checks| ==> !checks[k].passes
  {
    if checks == [] then 0
    else if !checks[0].passes then 0
    else 1 + FirstFailureIndex(checks[1..])
  }

  /** The message of the first failing check, or `None` when the input is accepted. */
  function FirstFailure(checks: seq<Check>): (r: Option<string>)
    ensures r.None? <==> forall j :: 0 <= j < |checks| ==> checks[j].passes
    ensures r.Some? ==> exists k :: 0 <= k < |checks| && !checks[k].passes
                                 && checks[k].message == r.value
                                 && forall j :: 0 <= j < k ==> checks[j].passes
  {
    var k := FirstFailureIndex(checks);
    if k < |checks| then Some(checks[k].message) else None
  }

  /** Unfolds a chain by one check: a failing head decides, a passing head defers to the rest. */
  lemma {:induction false} FirstFailureCons(c: Check, rest: seq<Check>)
    ensures FirstFailure([c] + rest) == if c.passes then FirstFailure(rest) else Some(c.message)
  {
    assert ([c] + rest)[1..] == rest;
  }

  /** A chain of three checks, as the login screen makes them, spelled out. */
  lemma {:induction false} FirstFailureOfThree(a: Check, b: Check, c: Check)
    ensures FirstFailure([a, b, c]) ==
              if !a.passes then Some(a.message)
              else if !b.passes then Some(b.message)
              else if !c.passes then Some(c.message)
              else None
  {
    assert [a, b, c] == [a] + ([b] + ([c] + []));
    FirstFailureCons(a, [b] + ([c] + []));
    FirstFailureCons(b, [c] + []);
    FirstFailureCons(c, []);
  }

  /** A chain of four checks, as the sign-up screen makes them, spelled out. */
  lemma {:induction false} FirstFailureOfFour(a: Check, b: Check, c: Check, d: Check)
    ensures FirstFailure([a, b, c, d]) ==
              if !a.passes then Some(a.message)
              else if !b.passes then Some(b.message)
              else if !c.passes then Some(c.message)
              else if !d.passes then Some(d.message)
              else None
  {
    assert [a, b, c, d] == [a] + [b, c, d];
    FirstFailureCons(a, [b, c, d]);
    FirstFailureOfThree(b, c, d);
  }
}
