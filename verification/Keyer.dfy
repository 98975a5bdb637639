/**
 The keyer's configuration and its match predicates (internal/app/mapper/mapper.go).

 A protobuf oneof is a datatype with an alternative for "not set"; a message field that may be nil is an
 Option. Regular expressions are two functions that may fail, of which nothing else is known. The
 predicate evaluator is written twice: as the chain of six probes the program runs, and as the
 meaning of the tree; the two are shown equal, errors included.
 */
module Keyer {
  import opened Common

  // ---------- the request, as the accessors present it ----------

  datatype Locality = Locality(region: string, zone: string, subZone: string)

  datatype Value = Str(s: string) | Bool(b: bool) | Struct(fields: Fields) | OtherKind
  type Fields = map<string, Value>

  datatype Request = Request(
    typeURL: string,
    resourceNames: seq<string>,
    nodeID: string,
    cluster: string,
    locality: Locality,
    metadata: Option<Fields>)

  // ---------- the configuration ----------

  datatype StringMatch = ExactMatch(exact: string) | RegexMatch(regex: string) | StringUnset

  datatype LocalityMatch =
    LocalityMatch(region: Option<StringMatch>, zone: Option<StringMatch>, subZone: Option<StringMatch>)

  datatype StructValueMatch = StringValueMatch(match_: StringMatch) | BoolValueMatch(want: bool) | ValueUnset

  datatype MetadataMatch = MetadataMatch(path: seq<string>, match_: Option<StructValueMatch>)

  datatype NodeMatch =
    | IdMatch(id: StringMatch)
    | ClusterMatch(cluster: StringMatch)
    | OfLocality(locality: LocalityMatch)
    | OfMetadata(metadata: MetadataMatch)
    | NodeUnset

  datatype MatchPredicate =
    | AndMatch(rules: seq<MatchPredicate>)
    | OrMatch(rules: seq<MatchPredicate>)
    | NotMatch(negated: MatchPredicate)
    | AnyMatch(any: bool)
    | RequestTypeMatch(types: seq<string>)
    | RequestNodeMatch(node: NodeMatch)
    | MatchUnset

  datatype ResultAction = Exact(exact: bool) | RegexAction(pattern: string, replace: string) | ActionUnset

  datatype LocalityAction =
    LocalityAction(region: Option<ResultAction>, zone: Option<ResultAction>, subZone: Option<ResultAction>)

  datatype MetadataAction = MetadataAction(path: seq<string>, action: Option<ResultAction>)

  datatype NodeFragment =
    | IdAction(id: ResultAction)
    | ClusterAction(cluster: ResultAction)
    | FromLocality(locality: LocalityAction)
    | FromMetadata(metadata: MetadataAction)
    | NodeFragmentUnset

  /** A 32-bit signed integer, the type of the element index in the configuration. */
  type Int32 = x: int | -0x8000_0000 <= x < 0x8000_0000

  datatype ResultPredicate =
    | AndResult(results: seq<ResultPredicate>)
    | NodeResult(node: NodeFragment)
    | NamesResult(element: Int32, action: Option<ResultAction>)
    | StringResult(text: string)
    | ResultUnset

  datatype Rule = Rule(match_: Option<MatchPredicate>, result: Option<ResultPredicate>)
  datatype Fragment = Fragment(rules: seq<Rule>)
  datatype Config = Config(fragments: seq<Fragment>)

  // ---------- outcomes ----------

  datatype KeyError =
    | TypeUrlEmpty
    | ResourceNamesEmpty
    | RequestNodeMatchInvalid
    | LocalityEmpty
    | MetadataEmpty
    | MetadataMatchInvalid
    | BadRegex(pattern: string)
    | ExactFragmentEmpty
    | RegexFragmentEmpty
    | PathInexistent
    | LocalityFragmentEmpty
    | ElementOutOfRange
    | CannotMap

  type Verdict = Result<bool, KeyError>

  /** regexp.MatchString(pattern, value) and Compile(pattern).ReplaceAllString(value, replacement);
      None is a pattern that does not compile. */
  datatype Regex = Regex(
    matches: (string, string) -> Option<bool>,
    replaceAll: (string, string, string) -> Option<string>)

  // ---------- leaves ----------

  function CompareString(m: StringMatch, rx: Regex, value: string): Verdict {
    match m
    case ExactMatch(e) => Ok(e != "" && value == e)
    case RegexMatch(r) =>
      if r == "" then Ok(false)
      else (match rx.matches(r, value) case None => Err(BadRegex(r)) case Some(b) => Ok(b))
    case StringUnset => Ok(false)
  }

  /** A field without a matcher matches; otherwise the matcher decides. */
  function CompareField(m: Option<StringMatch>, rx: Regex, value: string): Verdict {
    match m case None => Ok(true) case Some(sm) => CompareString(sm, rx, value)
  }

  /** All three fields are compared before the answers are combined, so an error in a later field wins
      over a mismatch in an earlier one. */
  function CompareLocality(m: LocalityMatch, rx: Regex, locality: Option<Locality>): Verdict {
    match locality
    case None => Err(LocalityEmpty)
    case Some(l) =>
      var region := CompareField(m.region, rx, l.region);
      if region.Err? then region else
      var zone := CompareField(m.zone, rx, l.zone);
      if zone.Err? then zone else
      var subZone := CompareField(m.subZone, rx, l.subZone);
      if subZone.Err? then subZone else
      Ok(region.value && zone.value && subZone.value)
  }

  /** The locality matches exactly if every field does, and errs exactly if some field errs, with the
      first such error, whether or not an earlier field mismatched. */
  lemma LocalityFieldByField(m: LocalityMatch, rx: Regex, l: Locality)
    ensures var vs := [CompareField(m.region, rx, l.region), CompareField(m.zone, rx, l.zone), CompareField(m.subZone, rx, l.subZone)];
      && (CompareLocality(m, rx, Some(l)) == Ok(true) <==> forall v :: v in vs ==> v == Ok(true))
      && (CompareLocality(m, rx, Some(l)).Err? <==> exists v :: v in vs && v.Err?)
      && (forall i :: 0 <= i < 3 && vs[i].Err? && (forall j :: 0 <= j < i ==> vs[j].Ok?) ==> CompareLocality(m, rx, Some(l)) == vs[i])
  {
    var vs := [CompareField(m.region, rx, l.region), CompareField(m.zone, rx, l.zone), CompareField(m.subZone, rx, l.subZone)];
    assert vs[0] in vs && vs[1] in vs && vs[2] in vs;
  }

  /** The value at the end of a path of keys, every value on the way being a struct. */
  function Lookup(fields: Fields, path: seq<string>): (r: Option<Value>)
    requires path != []
    decreases |path|
  {
    if path[0] !in fields then None
    else if |path| == 1 then Some(fields[path[0]])
    else
      match fields[path[0]]
      case Struct(inner) => Lookup(inner, path[1..])
      case _ => None
  }

  /** The `i`-th value of `chain` is what its predecessor, a struct, holds under the `i`-th key. */
  predicate Descends(fields: Fields, path: seq<string>, chain: seq<Value>, i: nat)
    requires |chain| == |path| && i < |path|
  {
    if i == 0 then path[0] in fields && chain[0] == fields[path[0]]
    else chain[i - 1].Struct? && path[i] in chain[i - 1].fields && chain[i] == chain[i - 1].fields[path[i]]
  }

  /** `chain` follows `path` down from `fields`. */
  predicate Follows(fields: Fields, path: seq<string>, chain: seq<Value>) {
    |chain| == |path| && forall i :: 0 <= i < |path| ==> Descends(fields, path, chain, i)
  }

  lemma {:induction false} LookupFollows(fields: Fields, path: seq<string>) returns (chain: seq<Value>)
    requires path != [] && Lookup(fields, path).Some?
    ensures Follows(fields, path, chain) && Lookup(fields, path) == Some(chain[|chain| - 1])
    decreases |path|
  {
    var first := fields[path[0]];
    chain := [first];
    if |path| > 1 {
      var rest := LookupFollows(first.fields, path[1..]);
      chain := [first] + rest;
      forall i | 0 <= i < |path| ensures Descends(fields, path, chain, i) {
        assert i > 0 ==> Descends(first.fields, path[1..], rest, i - 1);
      }
    }
  }

  lemma {:induction false} FollowingLooksUp(fields: Fields, path: seq<string>, chain: seq<Value>)
    requires path != [] && Follows(fields, path, chain)
    ensures Lookup(fields, path) == Some(chain[|chain| - 1])
    decreases |path|
  {
    assert Descends(fields, path, chain, 0);
    if |path| > 1 {
      assert Descends(fields, path, chain, 1);
      forall i | 0 <= i < |path| - 1 ensures Descends(chain[0].fields, path[1..], chain[1..], i) {
        assert Descends(fields, path, chain, i + 1);
      }
      FollowingLooksUp(chain[0].fields, path[1..], chain[1..]);
    }
  }

  /** The walk finds a value exactly when a chain of structs leads to it, and finds the end of that chain. */
  lemma LookupIsWalk(fields: Fields, path: seq<string>, v: Value)
    requires path != []
    ensures Lookup(fields, path) == Some(v)
      <==> exists chain :: Follows(fields, path, chain) && chain[|chain| - 1] == v
  {
    if Lookup(fields, path).Some? {
      var chain := LookupFollows(fields, path);
    }
    forall chain: seq<Value> | Follows(fields, path, chain) ensures Lookup(fields, path) == Some(chain[|chain| - 1]) {
      FollowingLooksUp(fields, path, chain);
    }
  }

  function StringOf(v: Option<Value>): string {
    if v.Some? && v.value.Str? then v.value.s else ""
  }

  function BoolOf(v: Option<Value>): bool {
    v.Some? && v.value.Bool? && v.value.b
  }

  function CompareValue(m: Option<StructValueMatch>, rx: Regex, v: Option<Value>): Verdict {
    match m
    case Some(StringValueMatch(sm)) => CompareString(sm, rx, StringOf(v))
    case Some(BoolValueMatch(want)) => Ok(want == BoolOf(v))
    case _ => Err(MetadataMatchInvalid)
  }

  /** What compareNodeMetadata computes: see CompareNodeMetadata below for its loop. */
  function MetadataVerdict(m: MetadataMatch, rx: Regex, metadata: Option<Fields>): Verdict {
    match metadata
    case None => Err(MetadataEmpty)
    case Some(fields) =>
      if m.path == [] then CompareValue(m.match_, rx, None)
      else
        match Lookup(fields, m.path)
        case None => Ok(false)
        case Some(v) => CompareValue(m.match_, rx, Some(v))
  }

  /** The walk itself: before every key but the first, the value reached so far must be a struct. */
  method CompareNodeMetadata(m: MetadataMatch, rx: Regex, metadata: Option<Fields>) returns (r: Verdict)
    ensures r == MetadataVerdict(m, rx, metadata)
  {
    if metadata.None? {
      return Err(MetadataEmpty);
    }
    var fields := metadata.value;
    var value: Option<Value> := None;
    for i := 0 to |m.path|
      invariant i == 0 <==> value.None?
      invariant i == 0 ==> fields == metadata.value
      invariant i == |m.path| > 0 ==> Lookup(metadata.value, m.path) == value
      invariant 0 < i < |m.path| ==>
        Lookup(metadata.value, m.path)
        == if value.value.Struct? then Lookup(value.value.fields, m.path[i..]) else None
    {
      if value.Some? {
        if value.value.Struct? {
          fields := value.value.fields;
        } else {
          return Ok(false);
        }
      }
      assert m.path[i..][1..] == m.path[i + 1..];
      assert i == 0 ==> m.path[i..] == m.path;
      if m.path[i] !in fields {
        return Ok(false);
      }
      value := Some(fields[m.path[i]]);
    }
    return CompareValue(m.match_, rx, value);
  }

  function CompareNode(m: NodeMatch, rx: Regex, req: Request): Verdict {
    match m
    case IdMatch(sm) => CompareString(sm, rx, req.nodeID)
    case ClusterMatch(sm) => CompareString(sm, rx, req.cluster)
    case OfLocality(lm) => CompareLocality(lm, rx, Some(req.locality))
    case OfMetadata(mm) => MetadataVerdict(mm, rx, req.metadata)
    case NodeUnset => Err(RequestNodeMatchInvalid)
  }

  // ---------- the program's chain of probes ----------

  function IsNodeMatch(p: MatchPredicate, rx: Regex, req: Request): Verdict {
    if p.RequestNodeMatch? then CompareNode(p.node, rx, req) else Ok(false)
  }

  predicate IsRequestTypeMatch(p: MatchPredicate, typeURL: string) {
    p.RequestTypeMatch? && typeURL in p.types
  }

  predicate IsAnyMatch(p: MatchPredicate) {
    p.AnyMatch? && p.any
  }

  function IsAndMatch(p: MatchPredicate, rx: Regex, req: Request): Verdict
    decreases p, 1
  {
    if p.AndMatch? then AndLoop(p.rules, rx, req) else Ok(false)
  }

  function AndLoop(rules: seq<MatchPredicate>, rx: Regex, req: Request): Verdict
    decreases rules, 0
  {
    if rules == [] then Ok(true)
    else
      var first := IsMatch(rules[0], rx, req);
      if first.Err? then first
      else if !first.value then Ok(false)
      else AndLoop(rules[1..], rx, req)
  }

  function IsOrMatch(p: MatchPredicate, rx: Regex, req: Request): Verdict
    decreases p, 1
  {
    if p.OrMatch? then OrLoop(p.rules, rx, req) else Ok(false)
  }

  function OrLoop(rules: seq<MatchPredicate>, rx: Regex, req: Request): Verdict
    decreases rules, 0
  {
    if rules == [] then Ok(false)
    else
      var first := IsMatch(rules[0], rx, req);
      if first.Err? then first
      else if first.value then Ok(true)
      else OrLoop(rules[1..], rx, req)
  }

  function IsNotMatch(p: MatchPredicate, rx: Regex, req: Request): Verdict
    decreases p, 1
  {
    if p.NotMatch? then
      var inner := IsMatch(p.negated, rx, req);
      if inner.Err? then inner else Ok(!inner.value)
    else Ok(false)
  }

  /** Node, and, or, not, then type and any: the first probe that errs or matches decides. */
  function IsMatch(p: MatchPredicate, rx: Regex, req: Request): Verdict
    decreases p, 2
  {
    var node := IsNodeMatch(p, rx, req);
    if node.Err? || node.value then node else
    var all := IsAndMatch(p, rx, req);
    if all.Err? || all.value then all else
    var some := IsOrMatch(p, rx, req);
    if some.Err? || some.value then some else
    var not_ := IsNotMatch(p, rx, req);
    if not_.Err? || not_.value then not_ else
    Ok(IsRequestTypeMatch(p, req.typeURL) || IsAnyMatch(p))
  }

  // ---------- the meaning of a predicate ----------

  /** The first verdict other than `unit`; `unit` when there is none. */
  function First(verdicts: seq<Verdict>, unit: Verdict): Verdict {
    if verdicts == [] then unit
    else if verdicts[0] != unit then verdicts[0]
    else First(verdicts[1..], unit)
  }

  function Flip(v: Verdict): Verdict {
    match v case Ok(b) => Ok(!b) case Err(_) => v
  }

  /** A conjunction is its first member that is not true, a disjunction its first member that is not
      false: an error decides where it stands. */
  function Eval(p: MatchPredicate, rx: Regex, req: Request): Verdict
    decreases p
  {
    match p
    case AndMatch(rules) => First(EvalAll(rules, rx, req), Ok(true))
    case OrMatch(rules) => First(EvalAll(rules, rx, req), Ok(false))
    case NotMatch(q) => Flip(Eval(q, rx, req))
    case AnyMatch(any) => Ok(any)
    case RequestTypeMatch(types) => Ok(req.typeURL in types)
    case RequestNodeMatch(node) => CompareNode(node, rx, req)
    case MatchUnset => Ok(false)
  }

  /** A rule without a predicate never matches. */
  function EvalRule(rule: Rule, rx: Regex, req: Request): Verdict {
    match rule.match_ case None => Ok(false) case Some(p) => Eval(p, rx, req)
  }

  function EvalAll(rules: seq<MatchPredicate>, rx: Regex, req: Request): seq<Verdict>
    decreases rules
  {
    seq(|rules|, i requires 0 <= i < |rules| => Eval(rules[i], rx, req))
  }

  /** The chain of probes computes the meaning of every predicate on every request. */
  lemma {:induction false} ProbesAreMeaning(p: MatchPredicate, rx: Regex, req: Request)
    ensures IsMatch(p, rx, req) == Eval(p, rx, req)
    decreases p, 1
  {
    match p
    case AndMatch(rules) => LoopsAreMeaning(rules, rx, req);
    case OrMatch(rules) => LoopsAreMeaning(rules, rx, req);
    case NotMatch(q) => ProbesAreMeaning(q, rx, req);
    case _ =>
  }

  lemma {:induction false} LoopsAreMeaning(rules: seq<MatchPredicate>, rx: Regex, req: Request)
    ensures AndLoop(rules, rx, req) == First(EvalAll(rules, rx, req), Ok(true))
    ensures OrLoop(rules, rx, req) == First(EvalAll(rules, rx, req), Ok(false))
    decreases rules, 0
  {
    if rules != [] {
      ProbesAreMeaning(rules[0], rx, req);
      LoopsAreMeaning(rules[1..], rx, req);
      assert EvalAll(rules, rx, req)[1..] == EvalAll(rules[1..], rx, req);
    }
  }

  // ---------- De Morgan, errors included ----------

  lemma {:induction false} FlipFirst(vs: seq<Verdict>, ws: seq<Verdict>, unit: bool)
    requires |vs| == |ws| && forall i :: 0 <= i < |vs| ==> ws[i] == Flip(vs[i])
    ensures First(ws, Ok(!unit)) == Flip(First(vs, Ok(unit)))
  {
    if vs != [] {
      FlipFirst(vs[1..], ws[1..], unit);
    }
  }

  function Negated(rules: seq<MatchPredicate>): (rs: seq<MatchPredicate>)
    ensures |rs| == |rules| && forall i :: 0 <= i < |rs| ==> rs[i] == NotMatch(rules[i])
  {
    seq(|rules|, i requires 0 <= i < |rules| => NotMatch(rules[i]))
  }

  /** Both laws hold as equations between verdicts, so the same error comes out on both sides. */
  lemma DeMorgan(rules: seq<MatchPredicate>, rx: Regex, req: Request)
    ensures Eval(NotMatch(AndMatch(rules)), rx, req) == Eval(OrMatch(Negated(rules)), rx, req)
    ensures Eval(NotMatch(OrMatch(rules)), rx, req) == Eval(AndMatch(Negated(rules)), rx, req)
  {
    forall i | 0 <= i < |rules| ensures EvalAll(Negated(rules), rx, req)[i] == Flip(EvalAll(rules, rx, req)[i]) {
      assert Eval(NotMatch(rules[i]), rx, req) == Flip(Eval(rules[i], rx, req));
    }
    FlipFirst(EvalAll(rules, rx, req), EvalAll(Negated(rules), rx, req), true);
    FlipFirst(EvalAll(rules, rx, req), EvalAll(Negated(rules), rx, req), false);
  }

  /** Negations pushed to the leaves; `negate` asks for the opposite of `p`. */
  function Pushed(p: MatchPredicate, negate: bool): MatchPredicate
    decreases p
  {
    match p
    case AndMatch(rules) =>
      var rs := seq(|rules|, i requires 0 <= i < |rules| => Pushed(rules[i], negate));
      if negate then OrMatch(rs) else AndMatch(rs)
    case OrMatch(rules) =>
      var rs := seq(|rules|, i requires 0 <= i < |rules| => Pushed(rules[i], negate));
      if negate then AndMatch(rs) else OrMatch(rs)
    case NotMatch(q) => Pushed(q, !negate)
    case _ => if negate then NotMatch(p) else p
  }

  /** Only a leaf is ever negated. */
  predicate NegatesLeavesOnly(p: MatchPredicate)
    decreases p
  {
    match p
    case AndMatch(rules) => forall i :: 0 <= i < |rules| ==> NegatesLeavesOnly(rules[i])
    case OrMatch(rules) => forall i :: 0 <= i < |rules| ==> NegatesLeavesOnly(rules[i])
    case NotMatch(q) => !q.AndMatch? && !q.OrMatch? && !q.NotMatch?
    case _ => true
  }

  /** Pushing the negations of any predicate to its leaves changes no verdict on any request, whether
      the verdict is an answer or an error, and leaves no other negation. */
  lemma {:induction false} PushingNegations(p: MatchPredicate, negate: bool, rx: Regex, req: Request)
    ensures Eval(Pushed(p, negate), rx, req) == if negate then Flip(Eval(p, rx, req)) else Eval(p, rx, req)
    ensures NegatesLeavesOnly(Pushed(p, negate))
    decreases p
  {
    match p
    case AndMatch(rules) => PushingInto(p, negate, rx, req); FlipAll(rules, Pushed(p, negate).rules, negate, true, rx, req);
    case OrMatch(rules) => PushingInto(p, negate, rx, req); FlipAll(rules, Pushed(p, negate).rules, negate, false, rx, req);
    case NotMatch(q) => PushingNegations(q, !negate, rx, req);
    case _ =>
  }

  lemma {:induction false} PushingInto(p: MatchPredicate, negate: bool, rx: Regex, req: Request)
    requires p.AndMatch? || p.OrMatch?
    ensures var rs := Pushed(p, negate).rules;
      |rs| == |p.rules|
      && forall i :: 0 <= i < |rs| ==>
        && NegatesLeavesOnly(rs[i])
        && Eval(rs[i], rx, req) == if negate then Flip(Eval(p.rules[i], rx, req)) else Eval(p.rules[i], rx, req)
    decreases p, 0
  {
    forall i | 0 <= i < |p.rules|
      ensures var q := Pushed(p, negate).rules[i];
        && NegatesLeavesOnly(q)
        && Eval(q, rx, req) == if negate then Flip(Eval(p.rules[i], rx, req)) else Eval(p.rules[i], rx, req)
    {
      PushingNegations(p.rules[i], negate, rx, req);
    }
  }

  lemma FlipAll(rules: seq<MatchPredicate>, rs: seq<MatchPredicate>, negate: bool, unit: bool, rx: Regex, req: Request)
    requires |rs| == |rules|
    requires forall i :: 0 <= i < |rs| ==>
      Eval(rs[i], rx, req) == if negate then Flip(Eval(rules[i], rx, req)) else Eval(rules[i], rx, req)
    ensures First(EvalAll(rs, rx, req), Ok(if negate then !unit else unit))
      == var v := First(EvalAll(rules, rx, req), Ok(unit)); if negate then Flip(v) else v
  {
    if negate {
      FlipFirst(EvalAll(rules, rx, req), EvalAll(rs, rx, req), unit);
    } else {
      assert EvalAll(rs, rx, req) == EvalAll(rules, rx, req);
    }
  }
}
