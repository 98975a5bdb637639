/**
 Which requests get no key for reasons of their own, and which errors mean that.
 */
module Refused {
  import opened Common
  import opened Keyer
  import opened Fragments
  import opened Mapper
  import Validate

  /** The errors that are about the request as a whole, not about a rule. */
  predicate AboutRequest(e: KeyError) { e == TypeUrlEmpty || e == ResourceNamesEmpty || e == CannotMap }

  predicate FromRule<T>(r: Result<T, KeyError>) { r.Err? ==> !AboutRequest(r.error) }

  lemma {:induction false} MatchIsFromRule(p: MatchPredicate, rx: Regex, req: Request)
    ensures FromRule(Eval(p, rx, req))
    decreases p
  {
    if p.AndMatch? || p.OrMatch? {
      forall i | 0 <= i < |p.rules| ensures FromRule(EvalAll(p.rules, rx, req)[i]) {
        MatchIsFromRule(p.rules[i], rx, req);
      }
      Validate.FirstIsOneOf(EvalAll(p.rules, rx, req), Ok(p.AndMatch?));
    } else if p.NotMatch? {
      MatchIsFromRule(p.negated, rx, req);
    }
  }

  lemma {:induction false} ResultIsFromRule(p: ResultPredicate, rx: Regex, req: Request)
    ensures FromRule(ResultText(p, rx, req))
    decreases p, 0
  {
    if p.AndResult? {
      ResultsAreFromRule(p.results, rx, req);
    } else if p.NodeResult? && p.node.FromLocality? {
      FieldTextsMean(Configured(req.locality, p.node.locality), rx);
    }
  }

  lemma {:induction false} ResultsAreFromRule(ps: seq<ResultPredicate>, rx: Regex, req: Request)
    ensures FromRule(TextOfAll(ps, rx, req))
    decreases ps, 1
  {
    if ps != [] {
      ResultIsFromRule(ps[0], rx, req);
      ResultsAreFromRule(ps[1..], rx, req);
    }
  }

  lemma {:induction false} RulesAreFromRule(rules: seq<Rule>, rx: Regex, req: Request)
    ensures FromRule(RulesParts(rules, rx, req))
  {
    if rules != [] {
      if rules[0].match_.Some? {
        MatchIsFromRule(rules[0].match_.value, rx, req);
      }
      if rules[0].result.Some? {
        ResultIsFromRule(rules[0].result.value, rx, req);
      }
      RulesAreFromRule(rules[1..], rx, req);
    }
  }

  lemma {:induction false} FragmentsAreFromRule(fragments: seq<Fragment>, rx: Regex, req: Request)
    ensures FromRule(AllParts(fragments, rx, req))
  {
    if fragments != [] {
      RulesAreFromRule(fragments[0].rules, rx, req);
      FragmentsAreFromRule(fragments[1..], rx, req);
    }
  }

  /** Whatever is configured: a request is refused for want of a type exactly if its type URL is empty, and
      for want of names exactly if it is an endpoint request, of either API version, that names nothing; and
      "cannot map" means that it is neither, and that no rule matched or failed. */
  lemma RefusedExactly(config: Config, rx: Regex, req: Request)
    ensures KeyOf(config, rx, req) == Err(TypeUrlEmpty) <==> req.typeURL == ""
    ensures KeyOf(config, rx, req) == Err(ResourceNamesEmpty)
      <==> && (|| req.typeURL == "type.googleapis.com/envoy.api.v2.ClusterLoadAssignment"
               || req.typeURL == "type.googleapis.com/envoy.config.endpoint.v3.ClusterLoadAssignment")
           && req.resourceNames == []
    ensures KeyOf(config, rx, req) == Err(CannotMap)
      <==> && KeyOf(config, rx, req) != Err(TypeUrlEmpty) && KeyOf(config, rx, req) != Err(ResourceNamesEmpty)
           && forall r :: r in AllRules(config.fragments) ==> EvalRule(r, rx, req) == Ok(false)
  {
    FragmentsAreFromRule(config.fragments, rx, req);
    FragmentsAreFlat(config.fragments, rx, req);
    if NoneFails(AllRules(config.fragments), rx, req) {
      PartsAreTexts(AllRules(config.fragments), rx, req);
      NoneMatching(AllRules(config.fragments), rx, req);
    } else {
      var i := FirstFailureExists(AllRules(config.fragments), rx, req);
      FirstFailureDecides(AllRules(config.fragments), i, rx, req);
    }
  }

  lemma {:induction false} NoneMatching(rules: seq<Rule>, rx: Regex, req: Request)
    requires NoneFails(rules, rx, req)
    ensures Matching(rules, rx, req) == [] <==> forall r :: r in rules ==> EvalRule(r, rx, req) == Ok(false)
  {
    if rules != [] {
      assert rules[0] in rules && !Fails(rules[0], rx, req);
      NoneMatching(rules[1..], rx, req);
      if Matches(rules[0], rx, req) {
        assert Matching(rules, rx, req)[0] == rules[0];
      } else {
        assert Matching(rules, rx, req) == Matching(rules[1..], rx, req);
        var v := EvalRule(rules[0], rx, req);
        assert v.Ok? && !v.value;
        assert forall r :: r in rules <==> r == rules[0] || r in rules[1..];
      }
    }
  }
}
