/**
 GetKey (internal/app/mapper/mapper.go): which requests share a key, and what a key says.
 */
module Mapper {
  import opened Common
  import opened Keyer
  import opened Fragments

  const SEPARATOR := '_'
  const V2_ENDPOINT := "type.googleapis.com/envoy.api.v2.ClusterLoadAssignment"
  const V3_ENDPOINT := "type.googleapis.com/envoy.config.endpoint.v3.ClusterLoadAssignment"

  type Parts = Result<seq<string>, KeyError>

  predicate IsEDS(typeURL: string) { typeURL == V2_ENDPOINT || typeURL == V3_ENDPOINT }

  /** What the program checks before it looks at any rule. */
  function Refusal(req: Request): Option<KeyError> {
    if req.typeURL == "" then Some(TypeUrlEmpty)
    else if IsEDS(req.typeURL) && |req.resourceNames| == 0 then Some(ResourceNamesEmpty)
    else None
  }

  // ---------- the key, rule by rule ----------

  /** One part if the rule matches, none if it does not. */
  function RuleParts(rule: Rule, rx: Regex, req: Request): Parts {
    match EvalRule(rule, rx, req)
    case Err(e) => Err(e)
    case Ok(false) => Ok([])
    case Ok(true) => (match RuleText(rule, rx, req) case Err(e) => Err(e) case Ok(t) => Ok([t]))
  }

  function RulesParts(rules: seq<Rule>, rx: Regex, req: Request): Parts {
    if rules == [] then Ok([])
    else Append(RuleParts(rules[0], rx, req), RulesParts(rules[1..], rx, req))
  }

  function AllParts(fragments: seq<Fragment>, rx: Regex, req: Request): Parts {
    if fragments == [] then Ok([])
    else Append(RulesParts(fragments[0].rules, rx, req), AllParts(fragments[1..], rx, req))
  }

  function Finish(req: Request, parts: Parts): Text {
    if Refusal(req).Some? then Err(Refusal(req).value)
    else
      match parts
      case Err(e) => Err(e)
      case Ok(ps) => if ps == [] then Err(CannotMap) else Ok(Join(ps, [SEPARATOR]))
  }

  function KeyOf(config: Config, rx: Regex, req: Request): Text {
    Finish(req, AllParts(config.fragments, rx, req))
  }

  method GetKey(config: Config, rx: Regex, req: Request) returns (r: Text)
    ensures r == KeyOf(config, rx, req)
  {
    if req.typeURL == "" {
      return Err(TypeUrlEmpty);
    }
    if IsEDS(req.typeURL) && |req.resourceNames| == 0 {
      return Err(ResourceNamesEmpty);
    }
    var fs := config.fragments;
    var resultFragments: seq<string> := [];
    AppendUnit(AllParts(fs, rx, req));
    assert fs[0..] == fs;
    for i := 0 to |fs|
      invariant AllParts(fs, rx, req) == Append(Ok(resultFragments), AllParts(fs[i..], rx, req))
    {
      var rules := fs[i].rules;
      ghost var rest := AllParts(fs[i + 1..], rx, req);
      assert fs[i..][0] == fs[i] && fs[i..][1..] == fs[i + 1..];
      assert rules[0..] == rules;
      for j := 0 to |rules|
        invariant AllParts(fs, rx, req)
          == Append(Ok(resultFragments), Append(RulesParts(rules[j..], rx, req), rest))
      {
        var rule := rules[j];
        ghost var before := resultFragments;
        assert rules[j..][0] == rule && rules[j..][1..] == rules[j + 1..];
        AppendAssociates(RuleParts(rule, rx, req), RulesParts(rules[j + 1..], rx, req), rest);
        AppendAssociates(Ok(before), RuleParts(rule, rx, req), Append(RulesParts(rules[j + 1..], rx, req), rest));
        AppendUnit(Ok(before));
        var isMatch: Verdict := Ok(false);
        if rule.match_.Some? {
          ProbesAreMeaning(rule.match_.value, rx, req);
          isMatch := IsMatch(rule.match_.value, rx, req);
        }
        if isMatch.Err? {
          return Err(isMatch.error);
        }
        if isMatch.value {
          var result := GetResult(rule, rx, req);
          if result.Err? {
            return result;
          }
          resultFragments := resultFragments + [result.value];
        }
      }
      AppendUnit(rest);
    }
    AppendUnit(Ok(resultFragments));
    if |resultFragments| == 0 {
      return Err(CannotMap);
    }
    return Ok(Join(resultFragments, [SEPARATOR]));
  }

  // ---------- what a key is ----------

  /** Every rule of every fragment, in the order of the configuration. */
  function AllRules(fragments: seq<Fragment>): seq<Rule> {
    if fragments == [] then [] else fragments[0].rules + AllRules(fragments[1..])
  }

  predicate Matches(rule: Rule, rx: Regex, req: Request) { EvalRule(rule, rx, req) == Ok(true) }

  predicate Fails(rule: Rule, rx: Regex, req: Request) {
    EvalRule(rule, rx, req).Err? || (Matches(rule, rx, req) && RuleText(rule, rx, req).Err?)
  }

  predicate NoneFails(rules: seq<Rule>, rx: Regex, req: Request) {
    forall r :: r in rules ==> !Fails(r, rx, req)
  }

  function ErrorOf(rule: Rule, rx: Regex, req: Request): KeyError
    requires Fails(rule, rx, req)
  {
    if EvalRule(rule, rx, req).Err? then EvalRule(rule, rx, req).error else RuleText(rule, rx, req).error
  }

  /** The rules that match, in order. */
  function Matching(rules: seq<Rule>, rx: Regex, req: Request): (ms: seq<Rule>)
    ensures forall i :: 0 <= i < |ms| ==> ms[i] in rules && Matches(ms[i], rx, req)
  {
    if rules == [] then []
    else (if Matches(rules[0], rx, req) then [rules[0]] else []) + Matching(rules[1..], rx, req)
  }

  function Texts(rules: seq<Rule>, rx: Regex, req: Request): (ts: seq<string>)
    requires forall i :: 0 <= i < |rules| ==> RuleText(rules[i], rx, req).Ok?
    ensures |ts| == |rules| && forall i :: 0 <= i < |rules| ==> RuleText(rules[i], rx, req) == Ok(ts[i])
  {
    seq(|rules|, i requires 0 <= i < |rules| => RuleText(rules[i], rx, req).value)
  }

  lemma {:induction false} RulesPartsAppend(a: seq<Rule>, b: seq<Rule>, rx: Regex, req: Request)
    ensures RulesParts(a + b, rx, req) == Append(RulesParts(a, rx, req), RulesParts(b, rx, req))
  {
    if a == [] {
      assert a + b == b;
      AppendUnit(RulesParts(b, rx, req));
    } else {
      assert (a + b)[0] == a[0] && (a + b)[1..] == a[1..] + b;
      RulesPartsAppend(a[1..], b, rx, req);
      AppendAssociates(RuleParts(a[0], rx, req), RulesParts(a[1..], rx, req), RulesParts(b, rx, req));
    }
  }

  /** Where one fragment ends and the next begins makes no difference to the program. */
  lemma {:induction false} FragmentsAreFlat(fragments: seq<Fragment>, rx: Regex, req: Request)
    ensures AllParts(fragments, rx, req) == RulesParts(AllRules(fragments), rx, req)
  {
    if fragments != [] {
      FragmentsAreFlat(fragments[1..], rx, req);
      RulesPartsAppend(fragments[0].rules, AllRules(fragments[1..]), rx, req);
    }
  }

  lemma {:induction false} PartsAreTexts(rules: seq<Rule>, rx: Regex, req: Request)
    requires NoneFails(rules, rx, req)
    ensures RulesParts(rules, rx, req) == Ok(Texts(Matching(rules, rx, req), rx, req))
  {
    if rules != [] {
      assert rules[0] in rules;
      PartsAreTexts(rules[1..], rx, req);
      var ms, rest := Matching(rules, rx, req), Matching(rules[1..], rx, req);
      if Matches(rules[0], rx, req) {
        assert ms == [rules[0]] + rest;
        assert Texts(ms, rx, req) == [RuleText(rules[0], rx, req).value] + Texts(rest, rx, req);
      } else {
        assert ms == rest;
        AppendUnit(RulesParts(rules[1..], rx, req));
      }
    }
  }

  lemma {:induction false} FirstFailureDecides(rules: seq<Rule>, i: nat, rx: Regex, req: Request)
    requires i < |rules| && Fails(rules[i], rx, req)
    requires forall j :: 0 <= j < i ==> !Fails(rules[j], rx, req)
    ensures RulesParts(rules, rx, req) == Err(ErrorOf(rules[i], rx, req))
  {
    if i > 0 {
      FirstFailureDecides(rules[1..], i - 1, rx, req);
    }
  }

  lemma {:induction false} FirstFailureExists(rules: seq<Rule>, rx: Regex, req: Request) returns (i: nat)
    requires !NoneFails(rules, rx, req)
    ensures i < |rules| && Fails(rules[i], rx, req) && forall j :: 0 <= j < i ==> !Fails(rules[j], rx, req)
  {
    if Fails(rules[0], rx, req) {
      i := 0;
    } else {
      i := FirstFailureExists(rules[1..], rx, req);
      i := i + 1;
    }
  }

  /** The conditions under which a request has a key, and the key it then has. */
  ghost predicate HasKey(config: Config, rx: Regex, req: Request, key: string) {
    var rules := AllRules(config.fragments);
    && Refusal(req).None?
    && NoneFails(rules, rx, req)
    && Matching(rules, rx, req) != []
    && key == Join(Texts(Matching(rules, rx, req), rx, req), [SEPARATOR])
  }

  /** The reasons for which a request has none. */
  ghost predicate HasNoKey(config: Config, rx: Regex, req: Request, e: KeyError) {
    var rules := AllRules(config.fragments);
    if Refusal(req).Some? then e == Refusal(req).value
    else if !NoneFails(rules, rx, req) then
      exists i ::
        && 0 <= i < |rules| && Fails(rules[i], rx, req) && e == ErrorOf(rules[i], rx, req)
        && forall j :: 0 <= j < i ==> !Fails(rules[j], rx, req)
    else e == CannotMap && Matching(rules, rx, req) == []
  }

  /** A request has a key exactly when it is not refused, no rule of any fragment fails, and some rule
      matches; the key is then the texts of all matching rules, in order, joined with "_". Otherwise
      the error is the refusal, that of the first failing rule, or that nothing matched. */
  lemma KeyCharacterised(config: Config, rx: Regex, req: Request)
    ensures forall k :: KeyOf(config, rx, req) == Ok(k) <==> HasKey(config, rx, req, k)
    ensures forall e :: KeyOf(config, rx, req) == Err(e) <==> HasNoKey(config, rx, req, e)
  {
    var rules := AllRules(config.fragments);
    FragmentsAreFlat(config.fragments, rx, req);
    if !NoneFails(rules, rx, req) {
      var i := FirstFailureExists(rules, rx, req);
      FirstFailureDecides(rules, i, rx, req);
      forall j | 0 <= j < |rules| && Fails(rules[j], rx, req) && forall k :: 0 <= k < j ==> !Fails(rules[k], rx, req)
        ensures j == i
      {
        assert !(j < i) && !(i < j);
      }
    } else {
      PartsAreTexts(rules, rx, req);
    }
  }

  // ---------- the documented rule: the first match of each fragment ----------

  function FirstMatch(rules: seq<Rule>, rx: Regex, req: Request): Parts {
    if rules == [] then Ok([])
    else
      var parts := RuleParts(rules[0], rx, req);
      if parts == Ok([]) then FirstMatch(rules[1..], rx, req) else parts
  }

  function FirstMatches(fragments: seq<Fragment>, rx: Regex, req: Request): Parts {
    if fragments == [] then Ok([])
    else Append(FirstMatch(fragments[0].rules, rx, req), FirstMatches(fragments[1..], rx, req))
  }

  function DocumentedKey(config: Config, rx: Regex, req: Request): Text {
    Finish(req, FirstMatches(config.fragments, rx, req))
  }

  /** No rule after the first matching one matches or errs. */
  predicate QuietAfterMatch(rules: seq<Rule>, rx: Regex, req: Request) {
    forall i, j :: 0 <= i < j < |rules| && Matches(rules[i], rx, req) ==> EvalRule(rules[j], rx, req) == Ok(false)
  }

  lemma {:induction false} NoMatchNoParts(rules: seq<Rule>, rx: Regex, req: Request)
    requires forall r :: r in rules ==> EvalRule(r, rx, req) == Ok(false)
    ensures RulesParts(rules, rx, req) == Ok([])
  {
    if rules != [] {
      assert rules[0] in rules;
      NoMatchNoParts(rules[1..], rx, req);
      AppendUnit(RulesParts(rules[1..], rx, req));
    }
  }

  lemma {:induction false} QuietIsFirstMatch(rules: seq<Rule>, rx: Regex, req: Request)
    requires QuietAfterMatch(rules, rx, req)
    ensures RulesParts(rules, rx, req) == FirstMatch(rules, rx, req)
  {
    if rules != [] {
      if Matches(rules[0], rx, req) {
        forall r | r in rules[1..] ensures EvalRule(r, rx, req) == Ok(false) {
          var j :| 0 <= j < |rules[1..]| && rules[1..][j] == r;
          assert r == rules[j + 1];
        }
        NoMatchNoParts(rules[1..], rx, req);
        AppendUnit(RuleParts(rules[0], rx, req));
      } else {
        QuietIsFirstMatch(rules[1..], rx, req);
        AppendUnit(RulesParts(rules[1..], rx, req));
      }
    }
  }

  /** The parts of one fragment, when none of its rules fails: the first match gives the first part,
      and there is at most one part exactly when the rules are quiet. */
  lemma {:induction false} FirstMatchIsFirstPart(rules: seq<Rule>, rx: Regex, req: Request)
    requires RulesParts(rules, rx, req).Ok?
    ensures var ps := RulesParts(rules, rx, req).value;
      && FirstMatch(rules, rx, req) == Ok(if ps == [] then [] else [ps[0]])
      && (|ps| <= 1 <==> QuietAfterMatch(rules, rx, req))
      && (ps == [] <==> forall r :: r in rules ==> EvalRule(r, rx, req) == Ok(false))
  {
    if rules != [] {
      var rest := rules[1..];
      FirstMatchIsFirstPart(rest, rx, req);
      assert forall j :: 0 <= j < |rest| ==> rest[j] == rules[j + 1];
      if Matches(rules[0], rx, req) {
        assert RulesParts(rules, rx, req).value == RuleParts(rules[0], rx, req).value + RulesParts(rest, rx, req).value;
        assert QuietAfterMatch(rules, rx, req) ==> forall j :: 0 <= j < |rest| ==> EvalRule(rest[j], rx, req) == Ok(false);
      } else {
        assert RulesParts(rules, rx, req).value == RulesParts(rest, rx, req).value;
        assert QuietAfterMatch(rules, rx, req) <==> QuietAfterMatch(rest, rx, req);
      }
    }
  }

  /** The length of the parts, a separator counted after each. */
  function Weight(parts: seq<string>): nat {
    if parts == [] then 0 else |parts[0]| + 1 + Weight(parts[1..])
  }

  lemma {:induction false} WeightAppend(a: seq<string>, b: seq<string>)
    ensures Weight(a + b) == Weight(a) + Weight(b)
  {
    if a == [] {
      assert a + b == b;
    } else {
      assert (a + b)[0] == a[0] && (a + b)[1..] == a[1..] + b;
      WeightAppend(a[1..], b);
    }
  }

  lemma {:induction false} JoinWeight(parts: seq<string>)
    requires parts != []
    ensures |Join(parts, [SEPARATOR])| + 1 == Weight(parts)
  {
    if |parts| > 1 {
      JoinWeight(parts[1..]);
    } else {
      assert parts[1..] == [];
    }
  }

  lemma {:induction false} FirstMatchesAreLighter(fragments: seq<Fragment>, rx: Regex, req: Request)
    requires AllParts(fragments, rx, req).Ok?
    ensures FirstMatches(fragments, rx, req).Ok?
    ensures var all, firsts := AllParts(fragments, rx, req).value, FirstMatches(fragments, rx, req).value;
      && (all == [] <==> firsts == [])
      && Weight(firsts) <= Weight(all)
      && (Weight(firsts) == Weight(all) <==> forall f :: f in fragments ==> QuietAfterMatch(f.rules, rx, req))
  {
    if fragments != [] {
      var f := fragments[0];
      FirstMatchIsFirstPart(f.rules, rx, req);
      FirstMatchesAreLighter(fragments[1..], rx, req);
      var ps := RulesParts(f.rules, rx, req).value;
      WeightAppend(ps, AllParts(fragments[1..], rx, req).value);
      WeightAppend(FirstMatch(f.rules, rx, req).value, FirstMatches(fragments[1..], rx, req).value);
      if ps != [] {
        WeightAppend([ps[0]], ps[1..]);
        assert ps == [ps[0]] + ps[1..];
        assert Weight(ps[1..]) == 0 <==> |ps| <= 1;
      }
      assert forall g :: g in fragments <==> g == f || g in fragments[1..];
    }
  }

  lemma {:induction false} QuietFragmentsAgree(fragments: seq<Fragment>, rx: Regex, req: Request)
    requires forall f :: f in fragments ==> QuietAfterMatch(f.rules, rx, req)
    ensures AllParts(fragments, rx, req) == FirstMatches(fragments, rx, req)
  {
    if fragments != [] {
      QuietIsFirstMatch(fragments[0].rules, rx, req);
      QuietFragmentsAgree(fragments[1..], rx, req);
    }
  }

  /** The program agrees with "the first rule that matches will be applied", errors included, when no
      fragment has a rule that matches or errs after one that matches; and when the program finds a
      key, it is the documented one only then. */
  lemma FirstMatchRule(config: Config, rx: Regex, req: Request)
    ensures (forall f :: f in config.fragments ==> QuietAfterMatch(f.rules, rx, req))
      ==> KeyOf(config, rx, req) == DocumentedKey(config, rx, req)
    ensures KeyOf(config, rx, req).Ok? && KeyOf(config, rx, req) == DocumentedKey(config, rx, req)
      ==> forall f :: f in config.fragments ==> QuietAfterMatch(f.rules, rx, req)
  {
    if forall f :: f in config.fragments ==> QuietAfterMatch(f.rules, rx, req) {
      QuietFragmentsAgree(config.fragments, rx, req);
    } else if KeyOf(config, rx, req).Ok? {
      FirstMatchesAreLighter(config.fragments, rx, req);
      JoinWeight(AllParts(config.fragments, rx, req).value);
      JoinWeight(FirstMatches(config.fragments, rx, req).value);
    }
  }

  /** The first rule that fails follows none that matches. */
  predicate FailsUnmatched(rules: seq<Rule>, rx: Regex, req: Request) {
    exists j ::
      && 0 <= j < |rules| && Fails(rules[j], rx, req)
      && forall h :: 0 <= h < j ==> EvalRule(rules[h], rx, req) == Ok(false)
  }

  lemma {:induction false} FailureIsSeen(rules: seq<Rule>, rx: Regex, req: Request)
    requires RulesParts(rules, rx, req).Err?
    ensures FailsUnmatched(rules, rx, req) ==> FirstMatch(rules, rx, req) == RulesParts(rules, rx, req)
    ensures !FailsUnmatched(rules, rx, req) ==> FirstMatch(rules, rx, req).Ok? && FirstMatch(rules, rx, req).value != []
  {
    if RuleParts(rules[0], rx, req).Ok? && !Matches(rules[0], rx, req) {
      var rest := rules[1..];
      FailureIsSeen(rest, rx, req);
      if FailsUnmatched(rest, rx, req) {
        var j :| 0 <= j < |rest| && Fails(rest[j], rx, req)
                 && forall h :: 0 <= h < j ==> EvalRule(rest[h], rx, req) == Ok(false);
        assert rules[j + 1] == rest[j] && forall h :: 0 < h <= j ==> rules[h] == rest[h - 1];
      }
      if j :| 0 <= j < |rules| && Fails(rules[j], rx, req)
              && forall h :: 0 <= h < j ==> EvalRule(rules[h], rx, req) == Ok(false) {
        assert rest[j - 1] == rules[j] && forall h :: 0 <= h < j - 1 ==> rest[h] == rules[h + 1];
      }
    }
  }

  /** `i` is the first fragment with a failing rule: the program stops there, the documented rule only if
      no rule before the failing one matches. */
  lemma {:induction false} FailingFragment(fragments: seq<Fragment>, rx: Regex, req: Request, i: nat)
    requires i < |fragments| && RulesParts(fragments[i].rules, rx, req).Err?
    requires forall h :: 0 <= h < i ==> RulesParts(fragments[h].rules, rx, req).Ok?
    ensures AllParts(fragments, rx, req) == RulesParts(fragments[i].rules, rx, req)
    ensures FirstMatches(fragments, rx, req) == AllParts(fragments, rx, req)
      <==> || FailsUnmatched(fragments[i].rules, rx, req)
           || FirstMatches(fragments[i + 1..], rx, req) == AllParts(fragments, rx, req)
    ensures FirstMatches(fragments, rx, req).Ok? ==> FirstMatches(fragments, rx, req).value != []
  {
    if i == 0 {
      FailureIsSeen(fragments[0].rules, rx, req);
    } else {
      FirstMatchIsFirstPart(fragments[0].rules, rx, req);
      assert forall h :: 0 <= h < i ==> fragments[1..][h] == fragments[h + 1];
      FailingFragment(fragments[1..], rx, req, i - 1);
      assert fragments[1..][i..] == fragments[i + 1..];
    }
  }

  /** Where a rule fails, the program reports the first that does. The documented rule reports the same
      exactly if no rule of the same fragment matches before it, or else if it goes on to the same error in
      a later fragment. */
  lemma FirstMatchRuleErrs(config: Config, rx: Regex, req: Request, i: nat)
    requires Refusal(req).None? && i < |config.fragments| && RulesParts(config.fragments[i].rules, rx, req).Err?
    requires forall h :: 0 <= h < i ==> RulesParts(config.fragments[h].rules, rx, req).Ok?
    ensures KeyOf(config, rx, req) == DocumentedKey(config, rx, req)
      <==> || FailsUnmatched(config.fragments[i].rules, rx, req)
           || FirstMatches(config.fragments[i + 1..], rx, req) == RulesParts(config.fragments[i].rules, rx, req)
  {
    FailingFragment(config.fragments, rx, req, i);
  }

  /** The two differ already on one fragment with two rules that match everything. */
  lemma FirstMatchRuleFails(rx: Regex, req: Request)
    requires Refusal(req).None?
    ensures var always := Some(AnyMatch(true));
      var config := Config([Fragment([Rule(always, Some(StringResult("a"))), Rule(always, Some(StringResult("b")))])]);
      KeyOf(config, rx, req) == Ok("a_b") && DocumentedKey(config, rx, req) == Ok("a")
  {
    var always := Some(AnyMatch(true));
    var first, second := Rule(always, Some(StringResult("a"))), Rule(always, Some(StringResult("b")));
    var rules := [first, second];
    assert rules == [first] + [second];
    RulesPartsAppend([first], [second], rx, req);
    OneRule(first, rx, req);
    OneRule(second, rx, req);
    OneFragment(Fragment(rules), rx, req);
    assert ["a"] + ["b"] == ["a", "b"];
    JoinTwo("a", "b");
    assert "a" + [SEPARATOR] + "b" == "a_b";
  }

  lemma JoinTwo(a: string, b: string)
    ensures Join([a, b], [SEPARATOR]) == a + [SEPARATOR] + b
  {
    assert [a, b][1..] == [b];
  }

  lemma OneRule(rule: Rule, rx: Regex, req: Request)
    ensures RulesParts([rule], rx, req) == RuleParts(rule, rx, req)
  {
    AppendUnit(RuleParts(rule, rx, req));
  }

  lemma OneFragment(f: Fragment, rx: Regex, req: Request)
    ensures AllParts([f], rx, req) == RulesParts(f.rules, rx, req)
    ensures FirstMatches([f], rx, req) == FirstMatch(f.rules, rx, req)
  {
    AppendUnit(RulesParts(f.rules, rx, req));
    AppendUnit(FirstMatch(f.rules, rx, req));
  }

  // ---------- reading a key back ----------

  /** The parts can be read back from a key exactly when none of them contains the separator. */
  lemma KeyIsReadable(config: Config, rx: Regex, req: Request)
    requires KeyOf(config, rx, req).Ok?
    ensures var key, parts := KeyOf(config, rx, req).value, AllParts(config.fragments, rx, req).value;
      Split(key, SEPARATOR) == parts <==> forall p :: p in parts ==> SEPARATOR !in p
  {
    SplitOfJoin(AllParts(config.fragments, rx, req).value, SEPARATOR);
  }

  /** Two requests whose parts are free of the separator share a key only if they agree on every part. */
  lemma SameKeySameParts(config: Config, rx: Regex, a: Request, b: Request)
    requires KeyOf(config, rx, a).Ok? && KeyOf(config, rx, a) == KeyOf(config, rx, b)
    requires forall p :: p in AllParts(config.fragments, rx, a).value ==> SEPARATOR !in p
    requires forall p :: p in AllParts(config.fragments, rx, b).value ==> SEPARATOR !in p
    ensures AllParts(config.fragments, rx, a) == AllParts(config.fragments, rx, b)
  {
    SplitOfJoinSound(AllParts(config.fragments, rx, a).value, SEPARATOR);
    SplitOfJoinSound(AllParts(config.fragments, rx, b).value, SEPARATOR);
  }

  /** Without that proviso two different nodes can share a key: with the key made of node and cluster,
      (a_b, c) and (a, b_c) both map to a_b_c. */
  lemma DifferentNodesOneKey(rx: Regex, req: Request)
    requires Refusal(req).None?
    ensures
      var always := Some(AnyMatch(true));
      var config := Config([
        Fragment([Rule(always, Some(NodeResult(IdAction(Exact(true)))))]),
        Fragment([Rule(always, Some(NodeResult(ClusterAction(Exact(true)))))])]);
      var a, b := req.(nodeID := "a_b", cluster := "c"), req.(nodeID := "a", cluster := "b_c");
      KeyOf(config, rx, a) == KeyOf(config, rx, b) == Ok("a_b_c")
  {
    var always := Some(AnyMatch(true));
    var id, cluster := Rule(always, Some(NodeResult(IdAction(Exact(true))))), Rule(always, Some(NodeResult(ClusterAction(Exact(true)))));
    var fs := [Fragment([id]), Fragment([cluster])];
    var a, b := req.(nodeID := "a_b", cluster := "c"), req.(nodeID := "a", cluster := "b_c");
    OneRule(id, rx, a);
    OneRule(id, rx, b);
    OneRule(cluster, rx, a);
    OneRule(cluster, rx, b);
    OneFragment(fs[1], rx, a);
    OneFragment(fs[1], rx, b);
    assert fs[1..] == [fs[1]];
    assert ["a_b"] + ["c"] == ["a_b", "c"] && ["a"] + ["b_c"] == ["a", "b_c"];
    JoinTwo("a_b", "c");
    JoinTwo("a", "b_c");
    assert "a_b" + [SEPARATOR] + "c" == "a_b_c" == "a" + [SEPARATOR] + "b_c";
  }
}
