/**
 The upstream stream rewrites its representative request in place before every send
 (internal/app/transport/streamv2.go and streamv3.go): version, nonce, error and, when the relay is
 configured to, one entry of the node's metadata. The request is the one the orchestrator keys and
 caches, so the key must survive any number of rewrites.
 */
module KeyStability {
  import opened Common
  import opened Keyer
  import opened Fragments
  import opened Mapper
  import Texts

  const OWN_KEY := "xdsrelay_node_metadata"

  /** A struct without entries may come with no map at all, and writing to that panics. */
  datatype Metadata = NoStruct | NilFields | WithFields(fields: Fields)

  datatype Node = Node(id: string, cluster: string, locality: Locality, metadata: Metadata)

  /** The fields of a DiscoveryRequest the program reads or writes; the error detail is a message text. */
  datatype Content = Content(
    versionInfo: string,
    responseNonce: string,
    errorDetail: Option<string>,
    typeURL: string,
    resourceNames: seq<string>,
    node: Option<Node>)

  function MetadataOf(c: Content): Metadata {
    if c.node.Some? then c.node.value.metadata else NoStruct
  }

  function AsFields(m: Metadata): Option<Fields> {
    match m case NoStruct => None case NilFields => Some(map[]) case WithFields(f) => Some(f)
  }

  /** The request as the mapper reads it through the accessors. */
  function View(c: Content): Request {
    var n := if c.node.Some? then c.node.value else Node("", "", Locality("", "", ""), NoStruct);
    Request(c.typeURL, c.resourceNames, n.id, n.cluster, n.locality, AsFields(n.metadata))
  }

  /** The relay's entry in the node's metadata. */
  function OwnEntry(c: Content): Option<Value> {
    var m := MetadataOf(c);
    if m.WithFields? && OWN_KEY in m.fields then Some(m.fields[OWN_KEY]) else None
  }

  /** Sending metadata writes into the node's struct: there must be a node, and a struct that is there
      must have its map. */
  predicate CanSend(c: Content, metadata: string) {
    metadata != "" ==> c.node.Some? && !c.node.value.metadata.NilFields?
  }

  datatype Rewrite = Rewrite(version: string, nonce: string, metadata: string)

  /** The request after one send. */
  function Rewritten(c: Content, w: Rewrite): Content
    requires CanSend(c, w.metadata)
  {
    var sent := c.(versionInfo := w.version, responseNonce := w.nonce, errorDetail := None);
    if w.metadata == "" then sent
    else
      var old_ := if c.node.value.metadata.WithFields? then c.node.value.metadata.fields else map[];
      sent.(node := Some(c.node.value.(metadata := WithFields(old_[OWN_KEY := Str(w.metadata)]))))
  }

  // ---------- the objects ----------

  class DiscoveryRequest {
    var versionInfo: string
    var responseNonce: string
    var errorDetail: Option<string>
    var typeURL: string
    var resourceNames: seq<string>
    var node: Option<Node>

    function Value(): Content
      reads this
    {
      Content(versionInfo, responseNonce, errorDetail, typeURL, resourceNames, node)
    }

    constructor (c: Content)
      ensures Value() == c
    {
      versionInfo, responseNonce, errorDetail := c.versionInfo, c.responseNonce, c.errorDetail;
      typeURL, resourceNames, node := c.typeURL, c.resourceNames, c.node;
    }
  }

  /** A stream holds the request it was opened for, not a copy. */
  class Stream {
    const initialRequest: DiscoveryRequest

    constructor (req: DiscoveryRequest)
      ensures initialRequest == req
    {
      initialRequest := req;
    }

    /** Everything of SendMsg but the transmission. */
    method SendMsg(version: string, nonce: string, metadata: string)
      requires CanSend(initialRequest.Value(), metadata)
      modifies initialRequest
      ensures initialRequest.Value() == Rewritten(old(initialRequest.Value()), Rewrite(version, nonce, metadata))
    {
      var msg := initialRequest;
      msg.versionInfo := version;
      msg.responseNonce := nonce;
      msg.errorDetail := None;
      if metadata != "" {
        var n := msg.node.value;
        if n.metadata.NoStruct? {
          n := n.(metadata := WithFields(map[]));
        }
        n := n.(metadata := WithFields(n.metadata.fields[OWN_KEY := Str(metadata)]));
        msg.node := Some(n);
      }
    }
  }

  // ---------- which configurations look at the entry ----------

  predicate Avoids(path: seq<string>) { path != [] ==> path[0] != OWN_KEY }

  predicate MatchAvoids(p: MatchPredicate)
    decreases p
  {
    match p
    case AndMatch(rules) => forall i :: 0 <= i < |rules| ==> MatchAvoids(rules[i])
    case OrMatch(rules) => forall i :: 0 <= i < |rules| ==> MatchAvoids(rules[i])
    case NotMatch(q) => MatchAvoids(q)
    case RequestNodeMatch(OfMetadata(m)) => Avoids(m.path)
    case _ => true
  }

  predicate ResultAvoids(p: ResultPredicate)
    decreases p
  {
    match p
    case AndResult(results) => forall i :: 0 <= i < |results| ==> ResultAvoids(results[i])
    case NodeResult(FromMetadata(a)) => Avoids(a.path)
    case _ => true
  }

  predicate RuleAvoids(r: Rule) {
    (r.match_.Some? ==> MatchAvoids(r.match_.value)) && (r.result.Some? ==> ResultAvoids(r.result.value))
  }

  /** No configured metadata path starts at the relay's own entry. */
  predicate ConfigAvoids(c: Config) {
    forall i, j :: 0 <= i < |c.fragments| && 0 <= j < |c.fragments[i].rules| ==> RuleAvoids(c.fragments[i].rules[j])
  }

  // ---------- stability ----------

  /** The two requests differ at most in the relay's own metadata entry, and in whether there is a
      metadata struct at all. */
  ghost predicate Grown(a: Request, b: Request) {
    && a == b.(metadata := a.metadata)
    && (a.metadata.Some? ==> b.metadata.Some?)
    && (b.metadata.Some? ==>
      var old_, now := if a.metadata.Some? then a.metadata.value else map[], b.metadata.value;
      forall k :: k != OWN_KEY ==> (k in old_ <==> k in now) && (k in old_ ==> old_[k] == now[k]))
  }

  lemma RewritingGrows(c: Content, w: Rewrite)
    requires CanSend(c, w.metadata)
    ensures Grown(View(c), View(Rewritten(c, w)))
  {
  }

  lemma LookupGrown(a: Fields, b: Fields, path: seq<string>)
    requires path != [] && path[0] != OWN_KEY
    requires path[0] in a <==> path[0] in b
    requires path[0] in a ==> a[path[0]] == b[path[0]]
    ensures Lookup(a, path) == Lookup(b, path)
  {
  }

  lemma {:induction false} EvalStable(p: MatchPredicate, rx: Regex, a: Request, b: Request)
    requires MatchAvoids(p) && Grown(a, b) && (a.metadata.Some? || Eval(p, rx, a).Ok?)
    ensures Eval(p, rx, b) == Eval(p, rx, a)
    decreases p
  {
    if p.AndMatch? || p.OrMatch? {
      forall i | 0 <= i < |p.rules| && (a.metadata.Some? || Eval(p.rules[i], rx, a).Ok?)
        ensures Eval(p.rules[i], rx, b) == Eval(p.rules[i], rx, a)
      {
        EvalStable(p.rules[i], rx, a, b);
      }
      FirstStable(EvalAll(p.rules, rx, a), EvalAll(p.rules, rx, b), Ok(p.AndMatch?), a.metadata.Some?);
    } else if p.NotMatch? {
      EvalStable(p.negated, rx, a, b);
    } else if p.RequestNodeMatch? && p.node.OfMetadata? {
      var m := p.node.metadata;
      if m.path != [] && a.metadata.Some? {
        LookupGrown(a.metadata.value, b.metadata.value, m.path);
      }
    }
  }

  /** What follows the deciding verdict is never looked at, so it may change from an error. */
  lemma {:induction false} FirstStable(vs: seq<Verdict>, ws: seq<Verdict>, unit: Verdict, all: bool)
    requires |vs| == |ws| && forall i :: 0 <= i < |vs| && (all || vs[i].Ok?) ==> ws[i] == vs[i]
    requires unit.Ok? && (all || First(vs, unit).Ok?)
    ensures First(ws, unit) == First(vs, unit)
  {
    if vs != [] && vs[0] == unit {
      FirstStable(vs[1..], ws[1..], unit, all);
    }
  }

  lemma {:induction false} TextStable(p: ResultPredicate, rx: Regex, a: Request, b: Request)
    requires ResultAvoids(p) && Grown(a, b)
    ensures ResultText(p, rx, b) == ResultText(p, rx, a)
    decreases p, 0
  {
    if p.AndResult? {
      TextsStable(p.results, rx, a, b);
    } else if p.NodeResult? && p.node.FromMetadata? {
      var m := p.node.metadata;
      if m.path != [] {
        LookupGrown(
          if a.metadata.Some? then a.metadata.value else map[],
          if b.metadata.Some? then b.metadata.value else map[],
          m.path);
      }
    }
  }

  lemma {:induction false} TextsStable(ps: seq<ResultPredicate>, rx: Regex, a: Request, b: Request)
    requires forall i :: 0 <= i < |ps| ==> ResultAvoids(ps[i])
    requires Grown(a, b)
    ensures TextOfAll(ps, rx, b) == TextOfAll(ps, rx, a)
    decreases ps, 1
  {
    if ps != [] {
      TextStable(ps[0], rx, a, b);
      TextsStable(ps[1..], rx, a, b);
    }
  }

  lemma {:induction false} RulesStable(rules: seq<Rule>, rx: Regex, a: Request, b: Request)
    requires forall j :: 0 <= j < |rules| ==> RuleAvoids(rules[j])
    requires Grown(a, b) && (a.metadata.Some? || RulesParts(rules, rx, a).Ok?)
    ensures RulesParts(rules, rx, b) == RulesParts(rules, rx, a)
  {
    if rules != [] {
      var r := rules[0];
      if r.match_.Some? && (a.metadata.Some? || EvalRule(r, rx, a).Ok?) {
        EvalStable(r.match_.value, rx, a, b);
      }
      if r.result.Some? {
        TextStable(r.result.value, rx, a, b);
      }
      if a.metadata.Some? || RulesParts(rules[1..], rx, a).Ok? {
        RulesStable(rules[1..], rx, a, b);
      }
    }
  }

  lemma {:induction false} FragmentsStable(fs: seq<Fragment>, rx: Regex, a: Request, b: Request)
    requires forall i, j :: 0 <= i < |fs| && 0 <= j < |fs[i].rules| ==> RuleAvoids(fs[i].rules[j])
    requires Grown(a, b) && (a.metadata.Some? || AllParts(fs, rx, a).Ok?)
    ensures AllParts(fs, rx, b) == AllParts(fs, rx, a)
  {
    if fs != [] {
      RulesStable(fs[0].rules, rx, a, b);
      FragmentsStable(fs[1..], rx, a, b);
    }
  }

  /** One rewrite keeps the key, or the error if there is a metadata struct. */
  lemma KeySurvivesRewrite(config: Config, rx: Regex, c: Content, w: Rewrite)
    requires ConfigAvoids(config) && CanSend(c, w.metadata)
    requires View(c).metadata.Some? || KeyOf(config, rx, View(c)).Ok?
    ensures KeyOf(config, rx, View(Rewritten(c, w))) == KeyOf(config, rx, View(c))
  {
    RewritingGrows(c, w);
    if Refusal(View(c)).None? && (View(c).metadata.Some? || AllParts(config.fragments, rx, View(c)).Ok?) {
      FragmentsStable(config.fragments, rx, View(c), View(Rewritten(c, w)));
    }
  }

  /** A run of sends. After the first that carries metadata the map is there, so only the start matters. */
  predicate CanSendAll(c: Content, ws: seq<Rewrite>) {
    forall i :: 0 <= i < |ws| ==> CanSend(c, ws[i].metadata)
  }

  function RewrittenBy(c: Content, ws: seq<Rewrite>): Content
    requires CanSendAll(c, ws)
    decreases |ws|
  {
    if ws == [] then c
    else
      assert forall i :: 0 <= i < |ws[1..]| ==> ws[1..][i] == ws[i + 1];
      RewrittenBy(Rewritten(c, ws[0]), ws[1..])
  }

  /** If a request has a key, it has the same key after any sequence of sends, whether or not it had
      metadata to begin with, as long as no configured path starts at the relay's own entry. If it had
      metadata, an error stays the same error as well. */
  lemma {:induction false} KeyIsStable(config: Config, rx: Regex, c: Content, ws: seq<Rewrite>)
    requires ConfigAvoids(config) && CanSendAll(c, ws)
    requires View(c).metadata.Some? || KeyOf(config, rx, View(c)).Ok?
    ensures KeyOf(config, rx, View(RewrittenBy(c, ws))) == KeyOf(config, rx, View(c))
    decreases |ws|
  {
    if ws != [] {
      KeySurvivesRewrite(config, rx, c, ws[0]);
      assert forall i :: 0 <= i < |ws[1..]| ==> ws[1..][i] == ws[i + 1];
      KeyIsStable(config, rx, Rewritten(c, ws[0]), ws[1..]);
    }
  }

  /** After a run of sends the request carries the version and nonce of the last one and no error, the
      relay's entry is that of the last one with metadata, and what identifies the request is as it was. */
  lemma {:induction false} LastSendWins(c: Content, ws: seq<Rewrite>)
    requires CanSendAll(c, ws) && ws != []
    ensures var d, last := RewrittenBy(c, ws), ws[|ws| - 1];
      && d.versionInfo == last.version && d.responseNonce == last.nonce && d.errorDetail == None
      && d.typeURL == c.typeURL && d.resourceNames == c.resourceNames
      && (last.metadata != "" ==> OwnEntry(d) == Some(Str(last.metadata)))
      && (last.metadata != "" ==> d.node.value.metadata.WithFields?)
      && (last.metadata != "" ==> "xdsrelay_node_metadata" in d.node.value.metadata.fields)
      && (last.metadata != "" ==> d.node.value.metadata.fields["xdsrelay_node_metadata"] == Str(last.metadata))
      && (c.node.Some? ==> d.node.Some? && d.node.value.(metadata := NoStruct) == c.node.value.(metadata := NoStruct))
      && ((forall w :: w in ws ==> w.metadata == "") ==> d.node == c.node)
    decreases |ws|
  {
    assert forall i :: 0 <= i < |ws[1..]| ==> ws[1..][i] == ws[i + 1];
    assert ws[0] in ws;
    if |ws| > 1 {
      LastSendWins(Rewritten(c, ws[0]), ws[1..]);
    }
  }

  /** Without metadata to send every request can be sent, any number of times; with metadata exactly those with
      a node whose metadata struct is absent or has its map, and once sent, always. */
  lemma WhatCanBeSent(c: Content, ws: seq<Rewrite>, w: Rewrite)
    ensures (forall v :: v in ws ==> v.metadata == "") ==> CanSendAll(c, ws)
    ensures c.node.None? && w.metadata != "" ==> !CanSendAll(c, [w])
    ensures c.node.Some? && (c.node.value.metadata.NoStruct? || c.node.value.metadata.WithFields?) ==> CanSendAll(c, ws)
    ensures CanSend(c, w.metadata) && w.metadata != "" ==> CanSendAll(Rewritten(c, w), ws)
  {
    assert [w][0] == w;
  }

  /** A configuration that takes the key from that entry gives a request a new key at every send. */
  lemma OwnEntryIsNotStable(rx: Regex, n: Node, first: string, second: string)
    requires first != "" && second != "" && first != second
    ensures
      var config := Config([Fragment([
        Rule(Some(AnyMatch(true)), Some(NodeResult(FromMetadata(MetadataAction([OWN_KEY], Some(Exact(true)))))))])]);
      var c := Content("", "", None, "type", [], Some(n.(metadata := WithFields(map[OWN_KEY := Str(first)]))));
      && KeyOf(config, rx, View(c)) == Ok(first)
      && KeyOf(config, rx, View(Rewritten(c, Rewrite("", "", second)))) == Ok(second)
  {
    var r := Rule(Some(AnyMatch(true)), Some(NodeResult(FromMetadata(MetadataAction([OWN_KEY], Some(Exact(true)))))));
    var c := Content("", "", None, "type", [], Some(n.(metadata := WithFields(map[OWN_KEY := Str(first)]))));
    var d := Rewritten(c, Rewrite("", "", second));
    forall v | v in [View(c), View(d)] ensures AllParts([Fragment([r])], rx, v) == RuleParts(r, rx, v) {
      OneRule(r, rx, v);
      OneFragment(Fragment([r]), rx, v);
    }
    assert View(c) in [View(c), View(d)] && View(d) in [View(c), View(d)];
  }

  /** Without metadata an error need not stay: before the first send that carries metadata, a matcher on
      metadata fails for want of a struct. This is a boundary of `SendMsg` alone: the relay never sends such
      a request, as `CreateWatch` rejects a request without a key
      (internal/app/orchestrator/orchestrator.go:133-147; `Relay.DoReject`). */
  lemma KeyMayAppear(rx: Regex, n: Node, md: string)
    requires md != "" && n.metadata.NoStruct?
    ensures
      var m := RequestNodeMatch(OfMetadata(MetadataMatch(["region"], Some(BoolValueMatch(true)))));
      var config := Config([Fragment([Rule(Some(NotMatch(m)), Some(StringResult("k")))])]);
      var c := Content("", "", None, "type", [], Some(n));
      && ConfigAvoids(config)
      && KeyOf(config, rx, View(c)) == Err(MetadataEmpty)
      && KeyOf(config, rx, View(Rewritten(c, Rewrite("", "", md)))) == Ok("k")
  {
    var m := RequestNodeMatch(OfMetadata(MetadataMatch(["region"], Some(BoolValueMatch(true)))));
    var r := Rule(Some(NotMatch(m)), Some(StringResult("k")));
    var c := Content("", "", None, "type", [], Some(n));
    var d := Rewritten(c, Rewrite("", "", md));
    OneRule(r, rx, View(c));
    OneRule(r, rx, View(d));
    OneFragment(Fragment([r]), rx, View(c));
    OneFragment(Fragment([r]), rx, View(d));
    assert OWN_KEY[0] != "region"[0];
    assert View(d).metadata.value == map[OWN_KEY := Str(md)];
  }

  /** A configuration of one rule, which takes every request of type `typeURL`. */
  function OneRuleConfig(typeURL: string, p: ResultPredicate): Config {
    Config([Fragment([Rule(Some(RequestTypeMatch([typeURL])), Some(p))])])
  }

  lemma OneRuleKey(p: ResultPredicate, rx: Regex, req: Request)
    requires Refusal(req).None?
    ensures KeyOf(OneRuleConfig(req.typeURL, p), rx, req) == ResultText(p, rx, req)
  {
    var r := Rule(Some(RequestTypeMatch([req.typeURL])), Some(p));
    OneRule(r, rx, req);
    OneFragment(Fragment([r]), rx, req);
  }

  /** The mapper sees the node's own id, cluster, locality and metadata, the request's names and its type: a
      rule that takes one of them as it stands makes it the key. */
  lemma MapperReads(c: Content, path: seq<string>, rx: Regex)
    requires c.node.Some? && path != [] && Refusal(View(c)).None?
    ensures var n, exact := c.node.value, Exact(true);
      && (n.id != "" ==> KeyOf(OneRuleConfig(c.typeURL, NodeResult(IdAction(exact))), rx, View(c)) == Ok(n.id))
      && (n.cluster != "" ==> KeyOf(OneRuleConfig(c.typeURL, NodeResult(ClusterAction(exact))), rx, View(c)) == Ok(n.cluster))
      && (n.locality.region != "" ==>
            KeyOf(OneRuleConfig(c.typeURL, NodeResult(FromLocality(LocalityAction(Some(exact), None, None)))), rx, View(c))
            == Ok(n.locality.region))
      && (c.resourceNames != [] && |c.resourceNames| < 0x8000_0000 && c.resourceNames[0] != "" ==>
            KeyOf(OneRuleConfig(c.typeURL, NamesResult(0, Some(exact))), rx, View(c)) == Ok(c.resourceNames[0]))
      && (forall t :: KeyOf(OneRuleConfig(c.typeURL, NodeResult(FromMetadata(MetadataAction(path, Some(exact))))), rx, View(c)) == Ok(t)
            <==> t != "" && n.metadata.WithFields? && Lookup(n.metadata.fields, path) == Some(Str(t)))
  {
    hide KeyOf, ResultText;
    var n, exact, req := c.node.value, Exact(true), View(c);
    OneRuleKey(NodeResult(IdAction(exact)), rx, req);
    OneRuleKey(NodeResult(ClusterAction(exact)), rx, req);
    OneRuleKey(NodeResult(FromLocality(LocalityAction(Some(exact), None, None))), rx, req);
    OneRuleKey(NamesResult(0, Some(exact)), rx, req);
    OneRuleKey(NodeResult(FromMetadata(MetadataAction(path, Some(exact)))), rx, req);
    Texts.NodeTexts(exact, rx, req);
    if n.locality.region != "" {
      RegionText(req, rx);
    }
    Texts.PathAndNameTexts(path, 0, rx, req);
  }

  lemma RegionText(req: Request, rx: Regex)
    requires req.locality.region != ""
    ensures ResultText(NodeResult(FromLocality(LocalityAction(Some(Exact(true)), None, None))), rx, req) == Ok(req.locality.region)
  {
    assert Texts.Chosen(req.locality, true, false, false) == [req.locality.region];
    Texts.LocalityTexts(true, false, false, rx, req);
  }

  /** A request without a node has an empty id; without a metadata struct a metadata matcher fails, while an
      empty struct, even one without a map, has no value at any path. */
  lemma MapperReadsNothing(c: Content, n: Node, path: seq<string>, rx: Regex)
    requires path != [] && Refusal(View(c)).None?
    ensures var never := RequestNodeMatch(OfMetadata(MetadataMatch(path, Some(BoolValueMatch(true)))));
      var config := Config([Fragment([Rule(Some(NotMatch(never)), Some(StringResult("k")))])]);
      && KeyOf(OneRuleConfig(c.typeURL, NodeResult(IdAction(Exact(true)))), rx, View(c.(node := None))) == Err(ExactFragmentEmpty)
      && KeyOf(config, rx, View(c.(node := None))) == Err(MetadataEmpty)
      && KeyOf(config, rx, View(c.(node := Some(n.(metadata := NoStruct))))) == Err(MetadataEmpty)
      && KeyOf(config, rx, View(c.(node := Some(n.(metadata := NilFields))))) == Ok("k")
  {
    var bare := View(c.(node := None));
    OneRuleKey(NodeResult(IdAction(Exact(true))), rx, bare);
    var never := RequestNodeMatch(OfMetadata(MetadataMatch(path, Some(BoolValueMatch(true)))));
    var r := Rule(Some(NotMatch(never)), Some(StringResult("k")));
    var bald := View(c.(node := Some(n.(metadata := NoStruct))));
    var hollow := View(c.(node := Some(n.(metadata := NilFields))));
    OneRule(r, rx, bare);
    OneRule(r, rx, bald);
    OneRule(r, rx, hollow);
    OneFragment(Fragment([r]), rx, bare);
    OneFragment(Fragment([r]), rx, bald);
    OneFragment(Fragment([r]), rx, hollow);
    assert Eval(never, rx, bare) == Eval(never, rx, bald) == Err(MetadataEmpty) && Eval(never, rx, hollow) == Ok(false);
    assert EvalRule(r, rx, hollow) == Flip(Eval(never, rx, hollow)) && EvalRule(r, rx, bare) == EvalRule(r, rx, bald) == Err(MetadataEmpty);
  }
}
