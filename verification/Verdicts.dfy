/**
 What each kind of match predicate says about a request, in terms of the request and of what the regular
 expression engine answers: conjunctions, disjunctions, negations, and every kind of leaf.
 */
module Verdicts {
  import opened Common
  import opened Keyer

  // ---------- combinations ----------

  /** `v` is the verdict of the `i`-th member, and all before it say `unit`. */
  predicate DecidesAt(rules: seq<MatchPredicate>, rx: Regex, req: Request, unit: bool, i: int, v: Verdict) {
    && 0 <= i < |rules| && IsMatch(rules[i], rx, req) == v && v != Ok(unit)
    && forall j :: 0 <= j < i ==> IsMatch(rules[j], rx, req) == Ok(unit)
  }

  lemma {:induction false} LoopsDecide(rules: seq<MatchPredicate>, rx: Regex, req: Request, v: Verdict)
    ensures AndLoop(rules, rx, req) == Ok(true) <==> forall i :: 0 <= i < |rules| ==> IsMatch(rules[i], rx, req) == Ok(true)
    ensures OrLoop(rules, rx, req) == Ok(false) <==> forall i :: 0 <= i < |rules| ==> IsMatch(rules[i], rx, req) == Ok(false)
    ensures v != Ok(true) ==> (AndLoop(rules, rx, req) == v <==> exists i :: DecidesAt(rules, rx, req, true, i, v))
    ensures v != Ok(false) ==> (OrLoop(rules, rx, req) == v <==> exists i :: DecidesAt(rules, rx, req, false, i, v))
  {
    hide IsMatch;
    if rules != [] {
      var rest := rules[1..];
      LoopsDecide(rest, rx, req, v);
      assert forall i :: 0 <= i < |rest| ==> rest[i] == rules[i + 1];
      forall unit ensures IsMatch(rules[0], rx, req) == Ok(unit) ==>
          ((exists i :: DecidesAt(rules, rx, req, unit, i, v)) <==> exists i :: DecidesAt(rest, rx, req, unit, i, v)) {
        DecidesLater(rules, rx, req, unit, v);
      }
      forall unit ensures IsMatch(rules[0], rx, req) != Ok(unit) ==>
          ((exists i :: DecidesAt(rules, rx, req, unit, i, v)) <==> IsMatch(rules[0], rx, req) == v) {
        if IsMatch(rules[0], rx, req) != Ok(unit) && IsMatch(rules[0], rx, req) == v {
          assert DecidesAt(rules, rx, req, unit, 0, v);
        }
      }
    }
  }

  lemma DecidesLater(rules: seq<MatchPredicate>, rx: Regex, req: Request, unit: bool, v: Verdict)
    requires rules != []
    ensures IsMatch(rules[0], rx, req) == Ok(unit) ==>
      ((exists i :: DecidesAt(rules, rx, req, unit, i, v)) <==> exists i :: DecidesAt(rules[1..], rx, req, unit, i, v))
  {
    hide IsMatch;
    if IsMatch(rules[0], rx, req) == Ok(unit) {
      if i :| DecidesAt(rules, rx, req, unit, i, v) {
        assert DecidesAt(rules[1..], rx, req, unit, i - 1, v);
      }
      if i :| DecidesAt(rules[1..], rx, req, unit, i, v) {
        assert forall j :: 0 < j <= i + 1 ==> rules[j] == rules[1..][j - 1];
        assert DecidesAt(rules, rx, req, unit, i + 1, v);
      }
    }
  }

  /** A conjunction is true exactly if every member is, an empty one too; otherwise its verdict is that of
      the first member that is not true, be it "no" or an error. */
  lemma AndIsAll(rules: seq<MatchPredicate>, rx: Regex, req: Request, v: Verdict)
    ensures IsMatch(AndMatch(rules), rx, req) == Ok(true)
      <==> forall i :: 0 <= i < |rules| ==> IsMatch(rules[i], rx, req) == Ok(true)
    ensures v != Ok(true) ==>
      (IsMatch(AndMatch(rules), rx, req) == v <==> exists i ::
        && 0 <= i < |rules| && IsMatch(rules[i], rx, req) == v
        && forall j :: 0 <= j < i ==> IsMatch(rules[j], rx, req) == Ok(true))
  {
    LoopsDecide(rules, rx, req, v);
    if v != Ok(true) {
      if i :| 0 <= i < |rules| && IsMatch(rules[i], rx, req) == v
              && forall j :: 0 <= j < i ==> IsMatch(rules[j], rx, req) == Ok(true) {
        assert DecidesAt(rules, rx, req, true, i, v);
      }
    }
  }

  /** A disjunction is false exactly if every member is, an empty one too; otherwise its verdict is that of
      the first member that is not false. */
  lemma OrIsAny(rules: seq<MatchPredicate>, rx: Regex, req: Request, v: Verdict)
    ensures IsMatch(OrMatch(rules), rx, req) == Ok(false)
      <==> forall i :: 0 <= i < |rules| ==> IsMatch(rules[i], rx, req) == Ok(false)
    ensures v != Ok(false) ==>
      (IsMatch(OrMatch(rules), rx, req) == v <==> exists i ::
        && 0 <= i < |rules| && IsMatch(rules[i], rx, req) == v
        && forall j :: 0 <= j < i ==> IsMatch(rules[j], rx, req) == Ok(false))
  {
    LoopsDecide(rules, rx, req, v);
    if v != Ok(false) {
      if i :| 0 <= i < |rules| && IsMatch(rules[i], rx, req) == v
              && forall j :: 0 <= j < i ==> IsMatch(rules[j], rx, req) == Ok(false) {
        assert DecidesAt(rules, rx, req, false, i, v);
      }
    }
  }

  /** A negation is true exactly where its operand is false, and errs exactly where that errs; the type
      predicate holds for the listed types and no other; "any" is what it is set to; and a rule without
      a predicate, or with one of no kind, matches nothing. */
  lemma OtherVerdicts(p: MatchPredicate, rx: Regex, req: Request)
    ensures forall b :: IsMatch(NotMatch(p), rx, req) == Ok(b) <==> IsMatch(p, rx, req) == Ok(!b)
    ensures forall e :: IsMatch(NotMatch(p), rx, req) == Err(e) <==> IsMatch(p, rx, req) == Err(e)
    ensures p.RequestTypeMatch? ==>
      IsMatch(p, rx, req) == Ok(exists i :: 0 <= i < |p.types| && p.types[i] == req.typeURL)
    ensures IsMatch(AnyMatch(true), rx, req) == Ok(true) && IsMatch(AnyMatch(false), rx, req) == Ok(false)
    ensures IsMatch(MatchUnset, rx, req) == Ok(false)
    ensures forall result, b :: EvalRule(Rule(None, result), rx, req) == Ok(b) <==> !b
    ensures forall result :: EvalRule(Rule(Some(p), result), rx, req) == IsMatch(p, rx, req)
  {
    ProbesAreMeaning(p, rx, req);
  }

  // ---------- leaves ----------

  /** The matcher is satisfied: it names the value itself, or the engine says that its pattern matches. */
  predicate Satisfied(m: StringMatch, rx: Regex, value: string) {
    || (m.ExactMatch? && m.exact != "" && m.exact == value)
    || (m.RegexMatch? && m.regex != "" && rx.matches(m.regex, value) == Some(true))
  }

  /** Its pattern does not compile. */
  predicate Broken(m: StringMatch, rx: Regex, value: string) {
    m.RegexMatch? && m.regex != "" && rx.matches(m.regex, value) == None
  }

  lemma StringVerdict(m: StringMatch, rx: Regex, value: string)
    ensures CompareString(m, rx, value) == Ok(true) <==> Satisfied(m, rx, value)
    ensures CompareString(m, rx, value).Err? <==> Broken(m, rx, value)
    ensures Broken(m, rx, value) ==> CompareString(m, rx, value) == Err(BadRegex(m.regex))
  {}

  /** A field that is not configured is satisfied by anything. */
  predicate FieldSatisfied(m: Option<StringMatch>, rx: Regex, value: string) {
    m.Some? ==> Satisfied(m.value, rx, value)
  }

  predicate FieldBroken(m: Option<StringMatch>, rx: Regex, value: string) {
    m.Some? && Broken(m.value, rx, value)
  }

  /** The id matcher looks at the node id, the cluster matcher at the cluster, and the locality matcher at
      region, zone and sub-zone, each in its own field: the predicate is true exactly if those configured
      are satisfied, and errs exactly if a pattern does not compile. */
  lemma NodeVerdicts(id: StringMatch, l: LocalityMatch, rx: Regex, req: Request)
    ensures IsMatch(RequestNodeMatch(IdMatch(id)), rx, req) == Ok(true) <==> Satisfied(id, rx, req.nodeID)
    ensures IsMatch(RequestNodeMatch(IdMatch(id)), rx, req).Err? <==> Broken(id, rx, req.nodeID)
    ensures IsMatch(RequestNodeMatch(ClusterMatch(id)), rx, req) == Ok(true) <==> Satisfied(id, rx, req.cluster)
    ensures IsMatch(RequestNodeMatch(ClusterMatch(id)), rx, req).Err? <==> Broken(id, rx, req.cluster)
    ensures IsMatch(RequestNodeMatch(OfLocality(l)), rx, req) == Ok(true)
      <==> && FieldSatisfied(l.region, rx, req.locality.region)
           && FieldSatisfied(l.zone, rx, req.locality.zone)
           && FieldSatisfied(l.subZone, rx, req.locality.subZone)
    ensures IsMatch(RequestNodeMatch(OfLocality(l)), rx, req).Err?
      <==> || FieldBroken(l.region, rx, req.locality.region)
           || FieldBroken(l.zone, rx, req.locality.zone)
           || FieldBroken(l.subZone, rx, req.locality.subZone)
    ensures IsMatch(RequestNodeMatch(NodeUnset), rx, req) == Err(RequestNodeMatchInvalid)
  {
    ProbesAreMeaning(RequestNodeMatch(OfLocality(l)), rx, req);
  }

  /** The text a metadata value stands for: other kinds than strings have none. */
  function Reading(v: Value): string {
    match v case Str(s) => s case _ => ""
  }

  /** A metadata matcher errs on a request without metadata. Otherwise a path that leads nowhere does not
      match; at its end a string matcher looks at the string, and a boolean one at whether the value is
      true, anything but a true boolean counting as false. */
  lemma MetadataVerdicts(path: seq<string>, sm: StringMatch, want: bool, rx: Regex, req: Request)
    requires path != []
    ensures var text, flag := MetadataMatch(path, Some(StringValueMatch(sm))), MetadataMatch(path, Some(BoolValueMatch(want)));
      var textVerdict := IsMatch(RequestNodeMatch(OfMetadata(text)), rx, req);
      var flagVerdict := IsMatch(RequestNodeMatch(OfMetadata(flag)), rx, req);
      && (req.metadata.None? <==> textVerdict == Err(MetadataEmpty)) && (req.metadata.None? <==> flagVerdict.Err?)
      && (req.metadata.Some? ==>
        && (flagVerdict == Ok(true) <==> exists v :: Lookup(req.metadata.value, path) == Some(v) && want == (v == Bool(true)))
        && (textVerdict == Ok(true) <==> exists v :: Lookup(req.metadata.value, path) == Some(v) && Satisfied(sm, rx, Reading(v)))
        && (textVerdict.Err? <==> exists v :: Lookup(req.metadata.value, path) == Some(v) && Broken(sm, rx, Reading(v))))
  {
    var text, flag := MetadataMatch(path, Some(StringValueMatch(sm))), MetadataMatch(path, Some(BoolValueMatch(want)));
    ProbesAreMeaning(RequestNodeMatch(OfMetadata(text)), rx, req);
    ProbesAreMeaning(RequestNodeMatch(OfMetadata(flag)), rx, req);
  }
}
