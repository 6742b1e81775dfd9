/**
 * `Router` (src/router/router.ts): an ordered, append-only list of rules.
 * `register` appends one rule; `find` returns the first rule, in registration
 * order, whose method and pattern both match, with its match context.
 */
module Routing {
  import opened Wrappers
  import opened Errors
  import opened Patterns
  import opened Rules

  /** What `find` returns: the matching rule and its match context. */
  datatype Found = Found(route: Rule, patternResult: Context)

  predicate Matches(rule: Rule, url: string, httpMethod: string, engine: Engine)
  {
    Match(rule, url, httpMethod, engine).Some?
  }

  /** The position of the earliest-registered rule that matches, if any. */
  function FirstMatch(routes: seq<Rule>, url: string, httpMethod: string, engine: Engine): (i: Option<nat>)
    ensures i.Some? ==> i.value < |routes| && Matches(routes[i.value], url, httpMethod, engine)
    ensures i.Some? ==> forall j :: 0 <= j < i.value ==> !Matches(routes[j], url, httpMethod, engine)
    ensures i.None? <==> forall j :: 0 <= j < |routes| ==> !Matches(routes[j], url, httpMethod, engine)
  {
    if routes == [] then None
    else if Matches(routes[0], url, httpMethod, engine) then Some(0)
    else
      var rest := FirstMatch(routes[1..], url, httpMethod, engine);
      assert forall j :: 1 <= j < |routes| ==> routes[j] == routes[1..][j - 1];
      if rest.None? then None else Some(rest.value + 1)
  }

  /** The specification of `find`: the first matching rule together with its match result. */
  function Lookup(routes: seq<Rule>, url: string, httpMethod: string, engine: Engine): (found: Option<Found>)
    ensures found.None? <==> forall j :: 0 <= j < |routes| ==> !Matches(routes[j], url, httpMethod, engine)
    ensures found.Some? ==>
      var i := FirstMatch(routes, url, httpMethod, engine).value;
      found.value.route == routes[i] && Some(found.value.patternResult) == Match(routes[i], url, httpMethod, engine)
  {
    match FirstMatch(routes, url, httpMethod, engine)
    case None => None
    case Some(i) => Some(Found(routes[i], Match(routes[i], url, httpMethod, engine).value))
  }

  class Router {
    /** `#routes`, in registration order. */
    var routes: seq<Rule>

    constructor ()
      ensures routes == []
    {
      routes := [];
    }

    /**
     * `register(params)`: the rule is built first, so a pattern the compiler
     * rejects throws and leaves the list as it was; otherwise exactly that rule
     * is appended and the router itself is returned for chaining.
     */
    method Register(params: RuleParams, engine: Engine) returns (result: Result<Router, Thrown>)
      modifies this
      ensures NewRule(params, engine).Success? ==>
        routes == old(routes) + [NewRule(params, engine).value] && result == Success(this)
      ensures NewRule(params, engine).Failure? ==>
        routes == old(routes) && result == Failure(NewRule(params, engine).error)
    {
      var rule :- NewRule(params, engine);
      routes := routes + [rule];
      return Success(this);
    }

    /**
     * `find(url, method)`: scans the rules in registration order and returns the
     * first match; the route list is only read.
     */
    method Find(url: string, httpMethod: string, engine: Engine) returns (found: Option<Found>)
      ensures found == Lookup(routes, url, httpMethod, engine)
    {
      for i := 0 to |routes|
        invariant forall j :: 0 <= j < i ==> !Matches(routes[j], url, httpMethod, engine)
      {
        var patternResult := Match(routes[i], url, httpMethod, engine);
        if patternResult.Some? {
          return Some(Found(routes[i], patternResult.value));
        }
      }
      return None;
    }
  }

  /**
   * First match wins: when two rules match, the later one is never the answer,
   * and the answer is at or before the earlier one.
   */
  lemma FirstMatchWins(routes: seq<Rule>, i: nat, j: nat, url: string, httpMethod: string, engine: Engine)
    requires i < j < |routes|
    requires Matches(routes[i], url, httpMethod, engine) && Matches(routes[j], url, httpMethod, engine)
    ensures FirstMatch(routes, url, httpMethod, engine).Some?
    ensures FirstMatch(routes, url, httpMethod, engine).value <= i
  {
  }

  /**
   * Appending a rule never changes an existing answer of `find`; it can only
   * answer requests that nothing earlier matched.
   */
  lemma {:induction false} AppendKeepsFirstMatch(routes: seq<Rule>, rule: Rule, url: string, httpMethod: string, engine: Engine)
    ensures FirstMatch(routes + [rule], url, httpMethod, engine) ==
      if FirstMatch(routes, url, httpMethod, engine).Some? then FirstMatch(routes, url, httpMethod, engine)
      else if Matches(rule, url, httpMethod, engine) then Some(|routes|)
      else None
  {
    var all := routes + [rule];
    var f := FirstMatch(routes, url, httpMethod, engine);
    if f.Some? {
      assert all[..|routes|] == routes;
      FirstMatchIsLeast(all, f.value, url, httpMethod, engine);
    } else {
      assert forall j :: 0 <= j < |routes| ==> all[j] == routes[j];
      if Matches(rule, url, httpMethod, engine) {
        assert all[|routes|] == rule;
        FirstMatchIsLeast(all, |routes|, url, httpMethod, engine);
      }
    }
  }

  /** `FirstMatch` is the least matching position. */
  lemma FirstMatchIsLeast(routes: seq<Rule>, k: nat, url: string, httpMethod: string, engine: Engine)
    requires k < |routes| && Matches(routes[k], url, httpMethod, engine)
    requires forall j :: 0 <= j < k ==> !Matches(routes[j], url, httpMethod, engine)
    ensures FirstMatch(routes, url, httpMethod, engine) == Some(k)
  {
    var f := FirstMatch(routes, url, httpMethod, engine);
    assert f.Some?;
  }

  /** `find` is insensitive to the case of the request method. */
  lemma LookupIgnoresMethodCase(routes: seq<Rule>, url: string, m1: string, m2: string, engine: Engine)
    requires Text.Upper(m1) == Text.Upper(m2)
    ensures Lookup(routes, url, m1, engine) == Lookup(routes, url, m2, engine)
  {
    forall j | 0 <= j < |routes|
      ensures Match(routes[j], url, m1, engine) == Match(routes[j], url, m2, engine)
    {
      MatchIgnoresMethodCase(routes[j], url, m1, m2, engine);
    }
  }
}
