/**
 The generated validation of a keyer configuration (pkg/api/aggregation/v1/aggregation.pb.validate.go),
 and what it guarantees about evaluation.

 Validation returns the first violation in field order, wrapped in the chain of messages that leads to
 it. WellFormed says declaratively which configurations pass.
 */
module Validate {
  import opened Common
  import opened Keyer
  import opened Fragments
  import opened Mapper

  /** A field, the position in it when it is repeated, and the violation inside the embedded message. */
  datatype Violation = Violation(field: string, index: Option<nat>, cause: Option<Violation>)

  type Outcome = Option<Violation>

  function Broken(field: string): Outcome { Some(Violation(field, None, None)) }

  /** An embedded message is as good as its own validation. */
  function Embedded(field: string, inner: Outcome): Outcome {
    if inner.None? then None else Some(Violation(field, None, inner))
  }

  function Else(a: Outcome, b: Outcome): Outcome { if a.Some? then a else b }

  /** The members of a repeated field in order, up to the first that fails. */
  function Each(field: string, outcomes: seq<Outcome>): (r: Outcome)
    ensures r.None? <==> forall i :: 0 <= i < |outcomes| ==> outcomes[i].None?
    ensures r.Some? ==> exists i ::
      && 0 <= i < |outcomes| && outcomes[i].Some? && r == Some(Violation(field, Some(i), outcomes[i]))
      && forall j :: 0 <= j < i ==> outcomes[j].None?
  {
    EachFrom(field, outcomes, 0)
  }

  function EachFrom(field: string, outcomes: seq<Outcome>, i: nat): (r: Outcome)
    requires i <= |outcomes|
    ensures r.None? <==> forall k :: i <= k < |outcomes| ==> outcomes[k].None?
    ensures r.Some? ==> exists k ::
      && i <= k < |outcomes| && outcomes[k].Some? && r == Some(Violation(field, Some(k), outcomes[k]))
      && forall j :: i <= j < k ==> outcomes[j].None?
    decreases |outcomes| - i
  {
    if i == |outcomes| then None
    else if outcomes[i].Some? then Some(Violation(field, Some(i), outcomes[i]))
    else EachFrom(field, outcomes, i + 1)
  }

  // ---------- matchers ----------

  function StringOutcome(m: StringMatch): Outcome {
    if m.StringUnset? then Broken("Type") else None
  }

  function FieldOutcome(field: string, m: Option<StringMatch>): Outcome {
    match m case None => None case Some(sm) => Embedded(field, StringOutcome(sm))
  }

  function LocalityOutcome(m: LocalityMatch): Outcome {
    Else(FieldOutcome("Region", m.region), Else(FieldOutcome("Zone", m.zone), FieldOutcome("SubZone", m.subZone)))
  }

  function PathOutcome(path: seq<string>): Outcome {
    if |path| < 1 then Broken("Path")
    else Each("Path", seq(|path|, i requires 0 <= i < |path| => if path[i] == "" then Broken("Key") else None))
  }

  function ValueOutcome(m: StructValueMatch): Outcome {
    match m
    case StringValueMatch(sm) => Embedded("StringMatch", StringOutcome(sm))
    case BoolValueMatch(_) => None
    case ValueUnset => Broken("Match")
  }

  function MetadataOutcome(m: MetadataMatch): Outcome {
    Else(PathOutcome(m.path),
      match m.match_ case None => Broken("Match") case Some(vm) => Embedded("Match", ValueOutcome(vm)))
  }

  function NodeOutcome(m: NodeMatch): Outcome {
    match m
    case IdMatch(sm) => Embedded("IdMatch", StringOutcome(sm))
    case ClusterMatch(sm) => Embedded("ClusterMatch", StringOutcome(sm))
    case OfLocality(lm) => Embedded("LocalityMatch", LocalityOutcome(lm))
    case OfMetadata(mm) => Embedded("NodeMetadataMatch", MetadataOutcome(mm))
    case NodeUnset => Broken("Type")
  }

  function MatchSetOutcome(n: nat, members: Outcome): Outcome {
    if n < 2 then Broken("Rules") else members
  }

  function MatchOutcome(p: MatchPredicate): Outcome
    decreases p
  {
    match p
    case AndMatch(rules) =>
      Embedded("AndMatch",
        MatchSetOutcome(|rules|, Each("Rules", seq(|rules|, i requires 0 <= i < |rules| => MatchOutcome(rules[i])))))
    case OrMatch(rules) =>
      Embedded("OrMatch",
        MatchSetOutcome(|rules|, Each("Rules", seq(|rules|, i requires 0 <= i < |rules| => MatchOutcome(rules[i])))))
    case NotMatch(q) => Embedded("NotMatch", MatchOutcome(q))
    case AnyMatch(any) => if !any then Broken("AnyMatch") else None
    case RequestTypeMatch(types) => if |types| < 1 then Embedded("RequestTypeMatch", Broken("Types")) else None
    case RequestNodeMatch(node) => Embedded("RequestNodeMatch", NodeOutcome(node))
    case MatchUnset => Broken("Type")
  }

  // ---------- results ----------

  function ActionOutcome(a: ResultAction): Outcome {
    match a
    case Exact(exact) => if !exact then Broken("Exact") else None
    case RegexAction(pattern, _) => Embedded("RegexAction", if pattern == "" then Broken("Pattern") else None)
    case ActionUnset => Broken("Action")
  }

  function OptionalAction(field: string, a: Option<ResultAction>): Outcome {
    match a case None => None case Some(action) => Embedded(field, ActionOutcome(action))
  }

  function RequiredAction(a: Option<ResultAction>): Outcome {
    match a case None => Broken("Action") case Some(action) => Embedded("Action", ActionOutcome(action))
  }

  function NodeFragmentOutcome(f: NodeFragment): Outcome {
    match f
    case IdAction(a) => Embedded("IdAction", ActionOutcome(a))
    case ClusterAction(a) => Embedded("ClusterAction", ActionOutcome(a))
    case FromLocality(a) =>
      Embedded("LocalityAction",
        Else(OptionalAction("RegionAction", a.region),
          Else(OptionalAction("ZoneAction", a.zone), OptionalAction("SubzoneAction", a.subZone))))
    case FromMetadata(a) => Embedded("NodeMetadataAction", Else(PathOutcome(a.path), RequiredAction(a.action)))
    case NodeFragmentUnset => Broken("Action")
  }

  function ResultOutcome(p: ResultPredicate): Outcome
    decreases p
  {
    match p
    case AndResult(results) =>
      Embedded("AndResult",
        if |results| < 2 then Broken("ResultPredicates")
        else Each("ResultPredicates", seq(|results|, i requires 0 <= i < |results| => ResultOutcome(results[i]))))
    case NodeResult(f) => Embedded("RequestNodeFragment", NodeFragmentOutcome(f))
    case NamesResult(element, action) =>
      Embedded("ResourceNamesFragment", if element < 0 then Broken("Element") else RequiredAction(action))
    case StringResult(_) => None
    case ResultUnset => Broken("Type")
  }

  // ---------- the configuration ----------

  function RuleOutcome(r: Rule): Outcome {
    Else(
      match r.match_ case None => Broken("Match") case Some(p) => Embedded("Match", MatchOutcome(p)),
      match r.result case None => Broken("Result") case Some(p) => Embedded("Result", ResultOutcome(p)))
  }

  function FragmentOutcome(f: Fragment): Outcome {
    if |f.rules| < 1 then Broken("Rules")
    else Each("Rules", seq(|f.rules|, i requires 0 <= i < |f.rules| => RuleOutcome(f.rules[i])))
  }

  function ConfigOutcome(c: Config): Outcome {
    if |c.fragments| < 1 then Broken("Fragments")
    else Each("Fragments", seq(|c.fragments|, i requires 0 <= i < |c.fragments| => FragmentOutcome(c.fragments[i])))
  }

  // ---------- which configurations pass ----------

  predicate Given(m: Option<StringMatch>) { m.Some? ==> !m.value.StringUnset? }

  predicate WellFormedPath(path: seq<string>) { path != [] && "" !in path }

  predicate WellFormedNode(m: NodeMatch) {
    match m
    case IdMatch(sm) => !sm.StringUnset?
    case ClusterMatch(sm) => !sm.StringUnset?
    case OfLocality(lm) => Given(lm.region) && Given(lm.zone) && Given(lm.subZone)
    case OfMetadata(mm) =>
      && WellFormedPath(mm.path)
      && mm.match_.Some? && !mm.match_.value.ValueUnset?
      && (mm.match_.value.StringValueMatch? ==> !mm.match_.value.match_.StringUnset?)
    case NodeUnset => false
  }

  predicate WellFormedMatch(p: MatchPredicate)
    decreases p
  {
    match p
    case AndMatch(rules) => |rules| >= 2 && forall i :: 0 <= i < |rules| ==> WellFormedMatch(rules[i])
    case OrMatch(rules) => |rules| >= 2 && forall i :: 0 <= i < |rules| ==> WellFormedMatch(rules[i])
    case NotMatch(q) => WellFormedMatch(q)
    case AnyMatch(any) => any
    case RequestTypeMatch(types) => types != []
    case RequestNodeMatch(node) => WellFormedNode(node)
    case MatchUnset => false
  }

  predicate WellFormedAction(a: ResultAction) {
    (a.Exact? && a.exact) || (a.RegexAction? && a.pattern != "")
  }

  predicate WellFormedIfGiven(a: Option<ResultAction>) { a.Some? ==> WellFormedAction(a.value) }

  predicate WellFormedFragment(f: NodeFragment) {
    match f
    case IdAction(a) => WellFormedAction(a)
    case ClusterAction(a) => WellFormedAction(a)
    case FromLocality(a) => WellFormedIfGiven(a.region) && WellFormedIfGiven(a.zone) && WellFormedIfGiven(a.subZone)
    case FromMetadata(a) => WellFormedPath(a.path) && a.action.Some? && WellFormedAction(a.action.value)
    case NodeFragmentUnset => false
  }

  predicate WellFormedResult(p: ResultPredicate)
    decreases p
  {
    match p
    case AndResult(results) => |results| >= 2 && forall i :: 0 <= i < |results| ==> WellFormedResult(results[i])
    case NodeResult(f) => WellFormedFragment(f)
    case NamesResult(element, action) => element >= 0 && action.Some? && WellFormedAction(action.value)
    case StringResult(_) => true
    case ResultUnset => false
  }

  predicate WellFormedRule(r: Rule) {
    r.match_.Some? && r.result.Some? && WellFormedMatch(r.match_.value) && WellFormedResult(r.result.value)
  }

  predicate WellFormed(c: Config) {
    && c.fragments != []
    && forall i :: 0 <= i < |c.fragments| ==>
      && c.fragments[i].rules != []
      && forall j :: 0 <= j < |c.fragments[i].rules| ==> WellFormedRule(c.fragments[i].rules[j])
  }

  lemma PathPasses(path: seq<string>)
    ensures PathOutcome(path).None? <==> WellFormedPath(path)
  {
    if path != [] {
      var outcomes := seq(|path|, i requires 0 <= i < |path| => if path[i] == "" then Broken("Key") else None);
      assert forall i :: 0 <= i < |path| ==> (outcomes[i].None? <==> path[i] != "");
    }
  }

  lemma {:induction false} MatchPasses(p: MatchPredicate)
    ensures MatchOutcome(p).None? <==> WellFormedMatch(p)
    decreases p
  {
    if p.AndMatch? || p.OrMatch? {
      var outcomes := seq(|p.rules|, i requires 0 <= i < |p.rules| => MatchOutcome(p.rules[i]));
      forall i | 0 <= i < |p.rules| ensures outcomes[i].None? <==> WellFormedMatch(p.rules[i]) {
        MatchPasses(p.rules[i]);
      }
    } else if p.NotMatch? {
      MatchPasses(p.negated);
    } else if p.RequestNodeMatch? && p.node.OfMetadata? {
      PathPasses(p.node.metadata.path);
    }
  }

  lemma {:induction false} ResultPasses(p: ResultPredicate)
    ensures ResultOutcome(p).None? <==> WellFormedResult(p)
    decreases p
  {
    if p.AndResult? {
      var outcomes := seq(|p.results|, i requires 0 <= i < |p.results| => ResultOutcome(p.results[i]));
      forall i | 0 <= i < |p.results| ensures outcomes[i].None? <==> WellFormedResult(p.results[i]) {
        ResultPasses(p.results[i]);
      }
    } else if p.NodeResult? && p.node.FromMetadata? {
      PathPasses(p.node.metadata.path);
    }
  }

  lemma FragmentPasses(f: Fragment)
    ensures FragmentOutcome(f).None?
      <==> f.rules != [] && forall j :: 0 <= j < |f.rules| ==> WellFormedRule(f.rules[j])
  {
    var outcomes := seq(|f.rules|, i requires 0 <= i < |f.rules| => RuleOutcome(f.rules[i]));
    forall i | 0 <= i < |f.rules| ensures outcomes[i].None? <==> WellFormedRule(f.rules[i]) {
      if f.rules[i].match_.Some? {
        MatchPasses(f.rules[i].match_.value);
      }
      if f.rules[i].result.Some? {
        ResultPasses(f.rules[i].result.value);
      }
    }
  }

  /** Validation accepts exactly the well-formed configurations. */
  lemma ValidationIsWellFormedness(c: Config)
    ensures ConfigOutcome(c).None? <==> WellFormed(c)
  {
    var outcomes := seq(|c.fragments|, i requires 0 <= i < |c.fragments| => FragmentOutcome(c.fragments[i]));
    forall i | 0 <= i < |c.fragments|
      ensures outcomes[i].None? <==>
        (c.fragments[i].rules != []
         && forall j :: 0 <= j < |c.fragments[i].rules| ==> WellFormedRule(c.fragments[i].rules[j]))
    {
      FragmentPasses(c.fragments[i]);
    }
  }

  // ---------- the shapes in question ----------

  /** What a violation inside one embedded message looks like. */
  function Within(field: string, inner: string): Outcome { Some(Violation(field, None, Some(Violation(inner, None, None)))) }

  /** A conjunction or disjunction has two members at least, and is as good as they are; so is a negation. */
  lemma SetShapes(p: MatchPredicate, q: MatchPredicate)
    ensures MatchOutcome(AndMatch([])) == MatchOutcome(AndMatch([p])) == Within("AndMatch", "Rules")
    ensures MatchOutcome(OrMatch([])) == MatchOutcome(OrMatch([p])) == Within("OrMatch", "Rules")
    ensures MatchOutcome(AndMatch([p, q])).None? <==> MatchOutcome(p).None? && MatchOutcome(q).None?
    ensures MatchOutcome(OrMatch([p, q])).None? <==> MatchOutcome(p).None? && MatchOutcome(q).None?
    ensures MatchOutcome(NotMatch(p)).None? <==> MatchOutcome(p).None?
  {
    var both := [p, q];
    MatchPasses(p);
    MatchPasses(q);
    MatchPasses(AndMatch(both));
    MatchPasses(OrMatch(both));
    assert both[0] == p && both[1] == q;
  }

  /** A type predicate names a type, "any" is not switched off, and some kind is set; nothing is asked of the
      texts that are compared with. */
  lemma MatchShapes(t: string)
    ensures MatchOutcome(AnyMatch(false)) == Broken("AnyMatch") && MatchOutcome(AnyMatch(true)) == None
    ensures MatchOutcome(RequestTypeMatch([])) == Within("RequestTypeMatch", "Types") && MatchOutcome(RequestTypeMatch([t])) == None
    ensures MatchOutcome(MatchUnset) == Broken("Type") && MatchOutcome(RequestNodeMatch(NodeUnset)) == Within("RequestNodeMatch", "Type")
    ensures MatchOutcome(RequestNodeMatch(IdMatch(ExactMatch(t)))) == None && MatchOutcome(RequestNodeMatch(IdMatch(RegexMatch(t)))) == None
    ensures MatchOutcome(RequestNodeMatch(IdMatch(StringUnset))).Some? && MatchOutcome(RequestNodeMatch(ClusterMatch(StringUnset))).Some?
  {}

  /** A metadata path has a key at least, and no empty one, and something to compare its end with. */
  lemma PathShapes(k: string, want: bool)
    ensures var outcome := (path: seq<string>, m: Option<StructValueMatch>) => MetadataOutcome(MetadataMatch(path, m));
      && outcome([], Some(BoolValueMatch(want))) == Broken("Path")
      && (outcome([k], Some(BoolValueMatch(want))) == None <==> k != "")
      && (k != "" ==> outcome([k], None) == Broken("Match") && outcome([k], Some(ValueUnset)) == Within("Match", "Match"))
  {
    PathPasses([k]);
  }

  /** A list of results has two members at least, an index is not negative, an action is "exact", switched on,
      or has a pattern; a constant may be empty. */
  lemma ResultShapes(p: ResultPredicate, q: ResultPredicate, element: Int32, t: string, r: string)
    ensures ResultOutcome(AndResult([])) == ResultOutcome(AndResult([p])) == Within("AndResult", "ResultPredicates")
    ensures ResultOutcome(AndResult([p, q])).None? <==> ResultOutcome(p).None? && ResultOutcome(q).None?
    ensures ResultOutcome(NamesResult(element, Some(Exact(true)))) == if element < 0 then Within("ResourceNamesFragment", "Element") else None
    ensures ResultOutcome(NamesResult(0, None)) == Within("ResourceNamesFragment", "Action")
    ensures ResultOutcome(StringResult(t)) == None && ResultOutcome(ResultUnset) == Broken("Type")
    ensures ResultOutcome(NodeResult(IdAction(Exact(true)))) == None && ResultOutcome(NodeResult(IdAction(Exact(false)))).Some?
    ensures ResultOutcome(NodeResult(IdAction(RegexAction(t, r)))) == None <==> t != ""
    ensures ResultOutcome(NodeResult(IdAction(ActionUnset))).Some? && ResultOutcome(NodeResult(NodeFragmentUnset)).Some?
  {
    var both := [p, q];
    ResultPasses(p);
    ResultPasses(q);
    ResultPasses(AndResult(both));
    assert both[0] == p && both[1] == q;
  }

  /** A configuration has a fragment at least, a fragment a rule, and a rule both a predicate and a result. */
  lemma ConfigShapes(p: MatchPredicate, q: ResultPredicate)
    requires MatchOutcome(p).None? && ResultOutcome(q).None?
    ensures ConfigOutcome(Config([])) == Broken("Fragments")
    ensures ConfigOutcome(Config([Fragment([])])) == Some(Violation("Fragments", Some(0), Broken("Rules")))
    ensures RuleOutcome(Rule(None, Some(q))) == Broken("Match") && RuleOutcome(Rule(Some(p), None)) == Broken("Result")
    ensures ConfigOutcome(Config([Fragment([Rule(Some(p), Some(q))])])) == None
  {
    MatchPasses(p);
    ResultPasses(q);
    ValidationIsWellFormedness(Config([Fragment([Rule(Some(p), Some(q))])]));
    assert FragmentOutcome(Fragment([])) == Broken("Rules");
  }

  // ---------- what a valid configuration cannot do ----------

  /** The errors that blame the configuration rather than the request: a node match of no kind, a
      metadata match of no kind, and the empty pattern. */
  predicate BlamesConfig(e: KeyError) {
    e == RequestNodeMatchInvalid || e == MetadataMatchInvalid || e == BadRegex("")
  }

  predicate Harmless<T>(r: Result<T, KeyError>) { r.Err? ==> !BlamesConfig(r.error) }

  lemma {:induction false} MatchIsHarmless(p: MatchPredicate, rx: Regex, req: Request)
    requires WellFormedMatch(p)
    ensures Harmless(Eval(p, rx, req))
    decreases p
  {
    if p.AndMatch? || p.OrMatch? {
      forall i | 0 <= i < |p.rules| ensures Harmless(EvalAll(p.rules, rx, req)[i]) {
        MatchIsHarmless(p.rules[i], rx, req);
      }
      FirstIsOneOf(EvalAll(p.rules, rx, req), Ok(p.AndMatch?));
    } else if p.NotMatch? {
      MatchIsHarmless(p.negated, rx, req);
    }
  }

  lemma {:induction false} FirstIsOneOf(vs: seq<Verdict>, unit: Verdict)
    ensures First(vs, unit) == unit || First(vs, unit) in vs
  {
    if vs != [] {
      FirstIsOneOf(vs[1..], unit);
    }
  }

  lemma {:induction false} ResultIsHarmless(p: ResultPredicate, rx: Regex, req: Request)
    requires WellFormedResult(p)
    ensures Harmless(ResultText(p, rx, req))
    decreases p, 0
  {
    if p.AndResult? {
      ResultsAreHarmless(p.results, rx, req);
    } else if p.NodeResult? && p.node.FromLocality? {
      FieldTextsMean(Configured(req.locality, p.node.locality), rx);
    }
  }

  lemma {:induction false} ResultsAreHarmless(ps: seq<ResultPredicate>, rx: Regex, req: Request)
    requires forall i :: 0 <= i < |ps| ==> WellFormedResult(ps[i])
    ensures Harmless(TextOfAll(ps, rx, req))
    decreases ps, 1
  {
    if ps != [] {
      ResultIsHarmless(ps[0], rx, req);
      ResultsAreHarmless(ps[1..], rx, req);
    }
  }

  lemma {:induction false} RulesAreHarmless(rules: seq<Rule>, rx: Regex, req: Request)
    requires forall j :: 0 <= j < |rules| ==> WellFormedRule(rules[j])
    ensures Harmless(RulesParts(rules, rx, req))
  {
    if rules != [] {
      MatchIsHarmless(rules[0].match_.value, rx, req);
      ResultIsHarmless(rules[0].result.value, rx, req);
      RulesAreHarmless(rules[1..], rx, req);
    }
  }

  lemma {:induction false} FragmentsAreHarmless(fragments: seq<Fragment>, rx: Regex, req: Request)
    requires forall i, j :: 0 <= i < |fragments| && 0 <= j < |fragments[i].rules| ==> WellFormedRule(fragments[i].rules[j])
    ensures Harmless(AllParts(fragments, rx, req))
  {
    if fragments != [] {
      RulesAreHarmless(fragments[0].rules, rx, req);
      FragmentsAreHarmless(fragments[1..], rx, req);
    }
  }

  /** With a validated configuration no request, however its predicates nest, gets one of those errors. */
  lemma ValidatedIsSafe(c: Config, rx: Regex, req: Request)
    requires ConfigOutcome(c).None?
    ensures KeyOf(c, rx, req).Err? ==> !BlamesConfig(KeyOf(c, rx, req).error)
  {
    ValidationIsWellFormedness(c);
    FragmentsAreHarmless(c.fragments, rx, req);
  }

  /** The validator is what stands between the two: without it each of the errors occurs. */
  lemma UnvalidatedIsNotSafe(req: Request)
    requires Refusal(req).None? && req.metadata.Some?
    ensures
      var rx := Regex((p, s) => None, (p, s, r) => None);
      var of := (m: MatchPredicate, r: ResultPredicate) => Config([Fragment([Rule(Some(m), Some(r))])]);
      && KeyOf(of(RequestNodeMatch(NodeUnset), ResultUnset), rx, req) == Err(RequestNodeMatchInvalid)
      && KeyOf(of(RequestNodeMatch(OfMetadata(MetadataMatch([], None))), ResultUnset), rx, req) == Err(MetadataMatchInvalid)
      && KeyOf(of(AnyMatch(true), NodeResult(IdAction(ActionUnset))), rx, req) == Err(BadRegex(""))
  {}

  /** Pushing negations to the leaves takes valid predicates to valid ones. */
  lemma {:induction false} PushedIsValid(p: MatchPredicate, negate: bool)
    requires MatchOutcome(p).None?
    ensures MatchOutcome(Pushed(p, negate)).None?
  {
    MatchPasses(p);
    PushedIsWellFormed(p, negate);
    MatchPasses(Pushed(p, negate));
  }

  lemma {:induction false} PushedIsWellFormed(p: MatchPredicate, negate: bool)
    requires WellFormedMatch(p)
    ensures WellFormedMatch(Pushed(p, negate))
    decreases p
  {
    if p.AndMatch? || p.OrMatch? {
      forall i | 0 <= i < |p.rules| ensures WellFormedMatch(Pushed(p, negate).rules[i]) {
        PushedIsWellFormed(p.rules[i], negate);
      }
    } else if p.NotMatch? {
      PushedIsWellFormed(p.negated, !negate);
    }
  }
}
