/**
 What each kind of result predicate contributes, in terms of the request and of what the regular
 expression engine does.
 */
module Texts {
  import opened Common
  import opened Keyer
  import opened Fragments

  /** An action with no effect of its own: none, none of the two kinds, or "exact" switched off. */
  predicate Plain(a: Option<ResultAction>) {
    a.None? || a.value.ActionUnset? || a.value == Exact(false)
  }

  /** The exact action gives the value as it stands, and has no text for an empty one. A regular expression
      gives what the engine makes of pattern, value and replacement, in these roles, unless that is empty
      or the pattern does not compile. Any other action is the empty pattern with the empty replacement. */
  lemma ActionTexts(value: string, pattern: string, replace: string, plain: Option<ResultAction>, rx: Regex)
    requires Plain(plain)
    ensures ActionText(value, Some(Exact(true)), rx) == if value == "" then Err(ExactFragmentEmpty) else Ok(value)
    ensures var made, text := rx.replaceAll(pattern, value, replace), ActionText(value, Some(RegexAction(pattern, replace)), rx);
      && (forall t :: text == Ok(t) <==> made == Some(t) && t != "")
      && (text == Err(BadRegex(pattern)) <==> made == None)
      && (text == Err(RegexFragmentEmpty) <==> made == Some(""))
    ensures ActionText(value, plain, rx) == ActionText(value, Some(RegexAction("", "")), rx)
  {}

  /** With an engine that leaves every value alone a regular expression is the exact action; with one that
      puts the replacement in place of every value it is the configured replacement. */
  lemma EnginesShow(value: string, pattern: string, replace: string, rx: Regex)
    ensures (forall p, v, r :: rx.replaceAll(p, v, r) == Some(v)) && value != "" ==>
      ActionText(value, Some(RegexAction(pattern, replace)), rx) == Ok(value) == ActionText(value, Some(Exact(true)), rx)
    ensures (forall p, v, r :: rx.replaceAll(p, v, r) == Some(r)) && replace != "" ==>
      ActionText(value, Some(RegexAction(pattern, replace)), rx) == Ok(replace)
  {}

  /** Each action reads its own field of the request. */
  lemma NodeTexts(a: ResultAction, rx: Regex, req: Request)
    ensures ResultText(NodeResult(IdAction(a)), rx, req) == ActionText(req.nodeID, Some(a), rx)
    ensures ResultText(NodeResult(ClusterAction(a)), rx, req) == ActionText(req.cluster, Some(a), rx)
    ensures ResultText(NodeResult(NodeFragmentUnset), rx, req) == Ok("")
  {}

  function ExactIf(b: bool): Option<ResultAction> { if b then Some(Exact(true)) else None }

  /** What the chosen fields hold, in the order region, zone, sub-zone. */
  function Chosen(l: Locality, region: bool, zone: bool, subZone: bool): seq<string> {
    (if region then [l.region] else []) + (if zone then [l.zone] else []) + (if subZone then [l.subZone] else [])
  }

  lemma ChosenText(l: Locality, region: bool, zone: bool, subZone: bool, rx: Regex)
    requires forall v :: v in Chosen(l, region, zone, subZone) ==> v != ""
    ensures var vs := Chosen(l, region, zone, subZone);
      LocalityText(l, LocalityAction(ExactIf(region), ExactIf(zone), ExactIf(subZone)), rx)
      == if vs == [] then Err(LocalityFragmentEmpty) else Ok(Join(vs, "|"))
  {
    hide ActionText, Join;
    var vs := Chosen(l, region, zone, subZone);
    assert forall i :: 0 <= i < |vs| ==> vs[i] in vs;
    ExactTexts(vs, rx);
    assert Configured(l, LocalityAction(ExactIf(region), ExactIf(zone), ExactIf(subZone))) == Exactly(vs);
  }

  /** The fields a locality action names, as they stand, in the order region, zone, sub-zone, with a bar
      between them; naming none is an error. */
  lemma LocalityTexts(region: bool, zone: bool, subZone: bool, rx: Regex, req: Request)
    requires forall v :: v in Chosen(req.locality, region, zone, subZone) ==> v != ""
    ensures var l, action := req.locality, LocalityAction(ExactIf(region), ExactIf(zone), ExactIf(subZone));
      ResultText(NodeResult(FromLocality(action)), rx, req)
      == if !region && !zone && !subZone then Err(LocalityFragmentEmpty)
         else Ok(Join((if region then [l.region] else []) + (if zone then [l.zone] else [])
                      + (if subZone then [l.subZone] else []), "|"))
  {
    hide LocalityText, Join;
    ChosenText(req.locality, region, zone, subZone, rx);
  }

  function Exactly(vs: seq<string>): seq<(string, ResultAction)> {
    seq(|vs|, i requires 0 <= i < |vs| => (vs[i], Exact(true)))
  }

  lemma {:induction false} ExactTexts(vs: seq<string>, rx: Regex)
    requires forall i :: 0 <= i < |vs| ==> vs[i] != ""
    ensures FieldTexts(Exactly(vs), rx) == Ok(vs)
  {
    if vs != [] {
      ExactTexts(vs[1..], rx);
      assert Exactly(vs)[1..] == Exactly(vs[1..]);
      assert [vs[0]] + vs[1..] == vs;
    }
  }

  /** The exact action on a metadata path gives the string at its end, and a path that leads nowhere, or a
      request without metadata, is an error. On a list of names the exact action gives the one that the
      index counts from zero. */
  lemma PathAndNameTexts(path: seq<string>, element: Int32, rx: Regex, req: Request)
    requires path != []
    ensures var text := ResultText(NodeResult(FromMetadata(MetadataAction(path, Some(Exact(true))))), rx, req);
      && (forall t :: text == Ok(t) <==> t != "" && req.metadata.Some? && Lookup(req.metadata.value, path) == Some(Str(t)))
      && (text == Err(PathInexistent) <==> req.metadata.None? || Lookup(req.metadata.value, path).None?)
    ensures |req.resourceNames| < 0x8000_0000 ==>
      forall t :: ResultText(NamesResult(element, Some(Exact(true))), rx, req) == Ok(t)
        <==> 0 <= element < |req.resourceNames| && req.resourceNames[element] == t && t != ""
  {}

  /** A constant is its own text; a result of no kind, and a rule without one, give the empty text. */
  lemma ConstantTexts(t: string, rx: Regex, req: Request)
    ensures ResultText(StringResult(t), rx, req) == Ok(t) && ResultText(ResultUnset, rx, req) == Ok("")
    ensures ResultText(AndResult([]), rx, req) == Ok("") && forall m :: RuleText(Rule(m, None), rx, req) == Ok("")
  {}

  /** Several results give their texts one after the other, the error of the first with one winning. */
  lemma AndTexts(p: ResultPredicate, q: ResultPredicate, rx: Regex, req: Request)
    ensures var a, b, both := ResultText(p, rx, req), ResultText(q, rx, req), ResultText(AndResult([p, q]), rx, req);
      both == if a.Ok? && b.Ok? then Ok(a.value + b.value) else if a.Err? then a else b
  {
    hide NodeText, NamesText;
    var none: seq<ResultPredicate> := [];
    assert [p, q][1..] == [q] && [q][1..] == none;
    AppendUnit(ResultText(q, rx, req));
    assert TextOfAll([q], rx, req) == ResultText(q, rx, req);
    assert TextOfAll([p, q], rx, req) == Append(ResultText(p, rx, req), TextOfAll([q], rx, req));
  }
}
