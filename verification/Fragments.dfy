/**
 What a matching rule contributes to the key: the getResult family of internal/app/mapper/mapper.go.

 The methods follow the program (builders, early returns, a path walk); ResultText is the meaning of a
 result predicate, and TextOfLeaves gives the same text from the flattened tree.
 */
module Fragments {
  import opened Common
  import opened Keyer

  type Text = Result<string, KeyError>

  // ---------- joining ----------

  function Join(parts: seq<string>, sep: string): string {
    if parts == [] then ""
    else if |parts| == 1 then parts[0]
    else parts[0] + sep + Join(parts[1..], sep)
  }

  // ---------- and splitting again ----------

  /** strings.Split on one character. */
  function Split(s: string, c: char): (parts: seq<string>)
    ensures parts != [] && forall p :: p in parts ==> c !in p
  {
    if s == "" then [""]
    else
      var rest := Split(s[1..], c);
      if s[0] == c then [""] + rest else [[s[0]] + rest[0]] + rest[1..]
  }

  lemma {:induction false} JoinOfSplit(s: string, c: char)
    ensures Join(Split(s, c), [c]) == s
  {
    if s != "" {
      JoinOfSplit(s[1..], c);
      var rest := Split(s[1..], c);
      if s[0] == c {
        assert ([""] + rest)[1..] == rest;
      } else {
        var parts := [[s[0]] + rest[0]] + rest[1..];
        assert parts[1..] == rest[1..];
        assert |rest| == 1 ==> Join(parts, [c]) == [s[0]] + rest[0];
      }
    }
  }

  lemma {:induction false} SplitAfter(a: string, b: string, c: char)
    requires c !in a
    ensures Split(a, c) == [a]
    ensures Split(a + [c] + b, c) == [a] + Split(b, c)
  {
    var s := a + [c] + b;
    if a == "" {
      assert s[1..] == b;
    } else {
      SplitAfter(a[1..], b, c);
      assert s[1..] == a[1..] + [c] + b;
      assert a == [a[0]] + a[1..];
    }
  }

  /** The parts can be read back exactly when none of them contains the separator. */
  lemma {:induction false} SplitOfJoin(parts: seq<string>, c: char)
    requires parts != []
    ensures Split(Join(parts, [c]), c) == parts <==> forall p :: p in parts ==> c !in p
  {
    if forall p :: p in parts ==> c !in p {
      SplitOfJoinSound(parts, c);
    }
  }

  lemma {:induction false} SplitOfJoinSound(parts: seq<string>, c: char)
    requires parts != [] && forall p :: p in parts ==> c !in p
    ensures Split(Join(parts, [c]), c) == parts
  {
    hide Split;
    SplitAfter(parts[0], "", c);
    if |parts| == 1 {
      assert parts == [parts[0]];
    } else {
      SplitOfJoinSound(parts[1..], c);
      SplitAfter(parts[0], Join(parts[1..], [c]), c);
      assert parts == [parts[0]] + parts[1..];
    }
  }

  // ---------- one action on one string ----------

  /** An action that is not "exact" is a regular expression, with empty pattern and replacement when
      none is configured. The empty string is never a result. */
  function ActionText(value: string, action: Option<ResultAction>, rx: Regex): (r: Text)
    ensures r.Ok? ==> r.value != ""
  {
    if action.Some? && action.value.Exact? && action.value.exact then
      if value == "" then Err(ExactFragmentEmpty) else Ok(value)
    else
      var (pattern, replace) :=
        if action.Some? && action.value.RegexAction? then (action.value.pattern, action.value.replace)
        else ("", "");
      match rx.replaceAll(pattern, value, replace)
      case None => Err(BadRegex(pattern))
      case Some(t) => if t == "" then Err(RegexFragmentEmpty) else Ok(t)
  }

  /** An exact matcher accepts a string exactly when the exact action turns that string into what the
      matcher wants. */
  lemma ExactAgrees(value: string, want: string, rx: Regex)
    ensures CompareString(ExactMatch(want), rx, value) == Ok(true) <==> ActionText(value, Some(Exact(true)), rx) == Ok(want)
  {
  }

  // ---------- locality ----------

  /** The configured fields with what the locality holds in them: region, zone, sub-zone. */
  function Configured(l: Locality, a: LocalityAction): (fs: seq<(string, ResultAction)>)
    ensures fs == [] <==> a == LocalityAction(None, None, None)
  {
    (if a.region.Some? then [(l.region, a.region.value)] else [])
    + (if a.zone.Some? then [(l.zone, a.zone.value)] else [])
    + (if a.subZone.Some? then [(l.subZone, a.subZone.value)] else [])
  }

  function FieldText(f: (string, ResultAction), rx: Regex): Text { ActionText(f.0, Some(f.1), rx) }

  /** The texts of the fields, or the first error. */
  function FieldTexts(fs: seq<(string, ResultAction)>, rx: Regex): Result<seq<string>, KeyError> {
    if fs == [] then Ok([])
    else
      match FieldText(fs[0], rx)
      case Err(e) => Err(e)
      case Ok(t) => Append(Ok([t]), FieldTexts(fs[1..], rx))
  }

  function LocalityText(l: Locality, a: LocalityAction, rx: Regex): Text {
    match FieldTexts(Configured(l, a), rx)
    case Err(e) => Err(e)
    case Ok(texts) => if texts == [] then Err(LocalityFragmentEmpty) else Ok(Join(texts, "|"))
  }

  /** `t` is the text of the fields `fs`: there is one exactly when there are fields and each of them has
      a text, and it is those texts joined with a bar; otherwise the first field without a text gives
      its error, or nothing is configured. */
  ghost predicate IsLocalityText(fs: seq<(string, ResultAction)>, rx: Regex, t: Text) {
    match t
    case Ok(s) => fs != [] && exists texts :: HaveTexts(fs, rx, texts) && s == Join(texts, "|")
    case Err(e) => if fs == [] then e == LocalityFragmentEmpty else exists i :: FailsFirst(fs, rx, i, e)
  }

  predicate HaveTexts(fs: seq<(string, ResultAction)>, rx: Regex, texts: seq<string>) {
    |texts| == |fs| && forall i :: 0 <= i < |fs| ==> FieldText(fs[i], rx) == Ok(texts[i])
  }

  predicate FailsFirst(fs: seq<(string, ResultAction)>, rx: Regex, i: int, e: KeyError) {
    0 <= i < |fs| && FieldText(fs[i], rx) == Err(e) && forall j :: 0 <= j < i ==> FieldText(fs[j], rx).Ok?
  }

  lemma {:induction false} FieldTextsMean(fs: seq<(string, ResultAction)>, rx: Regex)
    ensures FieldTexts(fs, rx).Ok? ==> HaveTexts(fs, rx, FieldTexts(fs, rx).value)
    ensures FieldTexts(fs, rx).Err? ==> exists i :: FailsFirst(fs, rx, i, FieldTexts(fs, rx).error)
  {
    if fs != [] {
      var rest := fs[1..];
      FieldTextsMean(rest, rx);
      if FieldText(fs[0], rx).Err? {
        assert FailsFirst(fs, rx, 0, FieldTexts(fs, rx).error);
      } else if FieldTexts(rest, rx).Err? {
        var i :| FailsFirst(rest, rx, i, FieldTexts(rest, rx).error);
        assert forall j :: 0 < j < i + 1 ==> fs[j] == rest[j - 1];
        assert FailsFirst(fs, rx, i + 1, FieldTexts(fs, rx).error);
      }
    }
  }

  lemma LocalityTextMeans(l: Locality, a: LocalityAction, rx: Regex)
    ensures IsLocalityText(Configured(l, a), rx, LocalityText(l, a, rx))
  {
    FieldTextsMean(Configured(l, a), rx);
  }

  /** Two texts of the same fields are the same: the meaning leaves nothing open. */
  lemma LocalityTextIsUnique(fs: seq<(string, ResultAction)>, rx: Regex, s: Text, t: Text)
    requires IsLocalityText(fs, rx, s) && IsLocalityText(fs, rx, t)
    ensures s == t
  {
    if fs != [] && s.Ok? && t.Ok? {
      var ss :| HaveTexts(fs, rx, ss) && s.value == Join(ss, "|");
      var ts :| HaveTexts(fs, rx, ts) && t.value == Join(ts, "|");
      assert forall i :: 0 <= i < |fs| ==> FieldText(fs[i], rx) == Ok(ss[i]) && FieldText(fs[i], rx) == Ok(ts[i]);
      assert ss == ts;
    } else if fs != [] && s.Err? && t.Err? {
      var i :| FailsFirst(fs, rx, i, s.error);
      var j :| FailsFirst(fs, rx, j, t.error);
      assert i == j;
    }
  }

  /** There is a text exactly when something is configured and every configured field has one; the error
      of an empty fragment means that nothing is configured, and nothing else. */
  lemma LocalityFails(l: Locality, a: LocalityAction, rx: Regex)
    ensures var fs := Configured(l, a);
      && (LocalityText(l, a, rx).Ok? <==> fs != [] && forall i :: 0 <= i < |fs| ==> FieldText(fs[i], rx).Ok?)
      && (LocalityText(l, a, rx) == Err(LocalityFragmentEmpty) <==> fs == [])
  {
    FieldTextsMean(Configured(l, a), rx);
  }

  lemma {:induction false} FieldTextsSplit(a: seq<(string, ResultAction)>, b: seq<(string, ResultAction)>, rx: Regex)
    ensures FieldTexts(a + b, rx) == Append(FieldTexts(a, rx), FieldTexts(b, rx))
  {
    if a == [] {
      assert a + b == b;
      AppendUnit(FieldTexts(b, rx));
    } else {
      assert (a + b)[0] == a[0] && (a + b)[1..] == a[1..] + b;
      FieldTextsSplit(a[1..], b, rx);
      if FieldText(a[0], rx).Ok? {
        AppendAssociates(Ok([FieldText(a[0], rx).value]), FieldTexts(a[1..], rx), FieldTexts(b, rx));
      }
    }
  }

  /** Taking one more field: its text is appended, or its error ends the walk. */
  lemma OneMoreField(done: seq<(string, ResultAction)>, f: (string, ResultAction), rest: seq<(string, ResultAction)>,
                     matches: seq<string>, rx: Regex)
    requires FieldTexts(done, rx) == Ok(matches)
    ensures FieldText(f, rx).Ok? ==> FieldTexts(done + [f], rx) == Ok(matches + [FieldText(f, rx).value])
    ensures FieldText(f, rx).Err? ==> FieldTexts(done + [f] + rest, rx) == Err(FieldText(f, rx).error)
  {
    FieldTextsSplit(done, [f], rx);
    FieldTextsSplit(done + [f], rest, rx);
    assert [f][1..] == [];
    if FieldText(f, rx).Ok? {
      AppendUnit(Ok([FieldText(f, rx).value]));
    }
  }

  method GetFragmentFromLocalityAction(l: Locality, a: LocalityAction, rx: Regex) returns (r: Text)
    ensures IsLocalityText(Configured(l, a), rx, r)
    ensures r == LocalityText(l, a, rx)
  {
    LocalityTextMeans(l, a, rx);
    var matches: seq<string> := [];
    ghost var zone := if a.zone.Some? then [(l.zone, a.zone.value)] else [];
    ghost var subZone := if a.subZone.Some? then [(l.subZone, a.subZone.value)] else [];
    ghost var done := [];
    if a.region.Some? {
      OneMoreField(done, (l.region, a.region.value), zone + subZone, matches, rx);
      done := done + [(l.region, a.region.value)];
      assert done + (zone + subZone) == Configured(l, a);
      var fragment := ActionText(l.region, a.region, rx);
      if fragment.Err? {
        return fragment;
      }
      matches := matches + [fragment.value];
    }
    if a.zone.Some? {
      OneMoreField(done, (l.zone, a.zone.value), subZone, matches, rx);
      done := done + [(l.zone, a.zone.value)];
      assert done + subZone == Configured(l, a);
      var fragment := ActionText(l.zone, a.zone, rx);
      if fragment.Err? {
        return fragment;
      }
      matches := matches + [fragment.value];
    }
    if a.subZone.Some? {
      OneMoreField(done, (l.subZone, a.subZone.value), [], matches, rx);
      done := done + [(l.subZone, a.subZone.value)];
      assert done + [] == Configured(l, a);
      var fragment := ActionText(l.subZone, a.subZone, rx);
      if fragment.Err? {
        return fragment;
      }
      matches := matches + [fragment.value];
    }
    assert done == Configured(l, a);
    if |matches| == 0 {
      return Err(LocalityFragmentEmpty);
    }
    return Ok(Join(matches, "|"));
  }

  /** A locality text tells its fields apart exactly when none of them contains a bar. */
  lemma LocalityIsReadable(l: Locality, a: LocalityAction, rx: Regex)
    requires LocalityText(l, a, rx).Ok?
    ensures var fields := FieldTexts(Configured(l, a), rx).value;
      Split(LocalityText(l, a, rx).value, '|') == fields <==> forall t :: t in fields ==> '|' !in t
  {
    SplitOfJoin(FieldTexts(Configured(l, a), rx).value, '|');
  }

  // ---------- node metadata ----------

  /** Unlike the matcher, the action treats a path that leads nowhere as an error; absent metadata is
      a struct without fields. Only string values have a text. */
  function MetadataText(metadata: Option<Fields>, a: MetadataAction, rx: Regex): Text {
    if a.path == [] then ActionText("", a.action, rx)
    else
      match Lookup(if metadata.Some? then metadata.value else map[], a.path)
      case None => Err(PathInexistent)
      case Some(v) => ActionText(StringOf(Some(v)), a.action, rx)
  }

  method GetFragmentFromNodeMetadataAction(metadata: Option<Fields>, a: MetadataAction, rx: Regex) returns (r: Text)
    ensures r == MetadataText(metadata, a, rx)
  {
    var fields: Fields := if metadata.Some? then metadata.value else map[];
    ghost var start := fields;
    var value: Option<Value> := None;
    for i := 0 to |a.path|
      invariant i == 0 <==> value.None?
      invariant i == 0 ==> fields == start
      invariant i == |a.path| > 0 ==> Lookup(start, a.path) == value
      invariant i > 0 ==> fields == if value.value.Struct? then value.value.fields else map[]
      invariant 0 < i < |a.path| ==>
        Lookup(start, a.path) == if value.value.Struct? then Lookup(value.value.fields, a.path[i..]) else None
    {
      assert a.path[i..][1..] == a.path[i + 1..];
      assert i == 0 ==> a.path[i..] == a.path;
      if a.path[i] !in fields {
        return Err(PathInexistent);
      }
      value := Some(fields[a.path[i]]);
      fields := if value.value.Struct? then value.value.fields else map[];
    }
    return ActionText(StringOf(value), a.action, rx);
  }

  /** Matcher and action read the same value: on present metadata an exact matcher accepts exactly when
      the exact action on the same path gives what it wants. Where the path leads nowhere the matcher
      says no and the action errs. */
  lemma MatcherAndActionAgree(fields: Fields, path: seq<string>, want: string, rx: Regex)
    ensures MetadataVerdict(MetadataMatch(path, Some(StringValueMatch(ExactMatch(want)))), rx, Some(fields)) == Ok(true)
      <==> MetadataText(Some(fields), MetadataAction(path, Some(Exact(true))), rx) == Ok(want)
    ensures MetadataText(Some(fields), MetadataAction(path, Some(Exact(true))), rx) == Err(PathInexistent)
      <==> path != [] && Lookup(fields, path).None?
  {
    if path != [] && Lookup(fields, path).Some? {
      ExactAgrees(StringOf(Lookup(fields, path)), want, rx);
    }
  }

  // ---------- one result predicate ----------

  function NodeText(f: NodeFragment, rx: Regex, req: Request): Text {
    match f
    case IdAction(a) => ActionText(req.nodeID, Some(a), rx)
    case ClusterAction(a) => ActionText(req.cluster, Some(a), rx)
    case FromLocality(a) => LocalityText(req.locality, a, rx)
    case FromMetadata(a) => MetadataText(req.metadata, a, rx)
    case NodeFragmentUnset => Ok("")
  }

  /** The conversion int32(n) of a length: the low 32 bits, read as a signed number. */
  function ToInt32(n: nat): Int32 {
    var low := n % 0x1_0000_0000;
    if low < 0x8000_0000 then low else low - 0x1_0000_0000
  }

  /** Whatever the length, an index that passes the program's test is in range. */
  lemma TruncatedLengthIsSafe(n: nat, index: Int32)
    requires 0 <= index < ToInt32(n)
    ensures index < n
  {
  }

  function NamesText(element: Int32, action: Option<ResultAction>, rx: Regex, names: seq<string>): Text {
    if element < 0 || element >= ToInt32(|names|) then Err(ElementOutOfRange)
    else ActionText(names[element], action, rx)
  }

  /** On any list of fewer than 2^31 names the index is refused exactly when it is out of range. A longer
      list can have its length truncated, and then indices in range are refused as well. */
  lemma IndexIsChecked(element: Int32, action: Option<ResultAction>, rx: Regex, names: seq<string>)
    ensures |names| < 0x8000_0000 ==>
      (NamesText(element, action, rx, names) == Err(ElementOutOfRange) <==> element < 0 || element >= |names|)
    ensures element < 0 || element >= |names| ==> NamesText(element, action, rx, names) == Err(ElementOutOfRange)
  {
    if 0 <= element < ToInt32(|names|) {
      TruncatedLengthIsSafe(|names|, element);
    }
  }

  /** One list (or text) before another, the first error winning. */
  function Append<T>(a: Result<seq<T>, KeyError>, b: Result<seq<T>, KeyError>): Result<seq<T>, KeyError> {
    if a.Err? then a else if b.Err? then b else Ok(a.value + b.value)
  }

  lemma AppendUnit<T>(a: Result<seq<T>, KeyError>)
    ensures Append(Ok([]), a) == a == Append(a, Ok([]))
  {
    if a.Ok? {
      assert [] + a.value == a.value == a.value + [];
    }
  }

  lemma AppendAssociates<T>(a: Result<seq<T>, KeyError>, b: Result<seq<T>, KeyError>, c: Result<seq<T>, KeyError>)
    ensures Append(Append(a, b), c) == Append(a, Append(b, c))
  {
    if a.Ok? && b.Ok? && c.Ok? {
      assert (a.value + b.value) + c.value == a.value + (b.value + c.value);
    }
  }

  function ResultText(p: ResultPredicate, rx: Regex, req: Request): Text
    decreases p, 0
  {
    match p
    case AndResult(results) => TextOfAll(results, rx, req)
    case NodeResult(f) => NodeText(f, rx, req)
    case NamesResult(element, action) => NamesText(element, action, rx, req.resourceNames)
    case StringResult(t) => Ok(t)
    case ResultUnset => Ok("")
  }

  function TextOfAll(ps: seq<ResultPredicate>, rx: Regex, req: Request): Text
    decreases ps, 1
  {
    if ps == [] then Ok("")
    else Append(ResultText(ps[0], rx, req), TextOfAll(ps[1..], rx, req))
  }

  function RuleText(rule: Rule, rx: Regex, req: Request): Text {
    match rule.result case None => Ok("") case Some(p) => ResultText(p, rx, req)
  }

  // ---------- the program's methods ----------

  /** Ok(None) is the program's (false, "", nil): this predicate is not of the kind asked about. */
  type Found = Result<Option<string>, KeyError>

  function AsFound(t: Text): Found {
    match t case Ok(s) => Ok(Some(s)) case Err(e) => Err(e)
  }

  method GetResultFromRequestNodePredicate(p: ResultPredicate, rx: Regex, req: Request) returns (r: Found)
    ensures r == if p.NodeResult? then AsFound(NodeText(p.node, rx, req)) else Ok(None)
  {
    if !p.NodeResult? {
      return Ok(None);
    }
    var t: Text := Ok("");
    match p.node {
      case IdAction(a) => t := ActionText(req.nodeID, Some(a), rx);
      case ClusterAction(a) => t := ActionText(req.cluster, Some(a), rx);
      case FromLocality(a) => t := GetFragmentFromLocalityAction(req.locality, a, rx);
      case FromMetadata(a) => t := GetFragmentFromNodeMetadataAction(req.metadata, a, rx);
      case NodeFragmentUnset =>
    }
    return AsFound(t);
  }

  /** Which names an index reaches: those it is in range for, as long as the truncated length covers them. */
  predicate Reaches(element: Int32, names: seq<string>) {
    0 <= element < |names| && element < ToInt32(|names|)
  }

  /** An index that reaches no name is an error, and below 2^31 names that is exactly an index out of
      range; otherwise the name, as it stands or as the regular expression rewrites it, is the fragment,
      and no fragment is empty. */
  method GetResultFromResourceNamesPredicate(p: ResultPredicate, rx: Regex, names: seq<string>) returns (r: Found)
    ensures r == Ok(None) <==> !p.NamesResult?
    ensures p.NamesResult? ==> (r == Err(ElementOutOfRange) <==> !Reaches(p.element, names))
    ensures p.NamesResult? && |names| < 0x8000_0000 ==> (Reaches(p.element, names) <==> 0 <= p.element < |names|)
    ensures p.NamesResult? && Reaches(p.element, names) ==> r == AsFound(ActionText(names[p.element], p.action, rx))
    ensures p.NamesResult? && p.action == Some(Exact(true)) && r.Ok? ==> r.value == Some(names[p.element])
    ensures r.Ok? && r.value.Some? ==> r.value.value != ""
  {
    if !p.NamesResult? {
      return Ok(None);
    }
    if p.element < 0 || p.element >= ToInt32(|names|) {
      return Err(ElementOutOfRange);
    }
    TruncatedLengthIsSafe(|names|, p.element);
    var resource := names[p.element];
    return AsFound(ActionText(resource, p.action, rx));
  }

  lemma {:induction false} TextOfAllSplits(ps: seq<ResultPredicate>, i: nat, rx: Regex, req: Request)
    requires i <= |ps|
    ensures TextOfAll(ps, rx, req) == Append(TextOfAll(ps[..i], rx, req), TextOfAll(ps[i..], rx, req))
  {
    if i == 0 {
      assert ps[i..] == ps;
      AppendUnit(TextOfAll(ps, rx, req));
    } else {
      TextOfAllSplits(ps[1..], i - 1, rx, req);
      assert ps[..i][1..] == ps[1..][..i - 1];
      assert ps[1..][i - 1..] == ps[i..];
      AppendAssociates(ResultText(ps[0], rx, req), TextOfAll(ps[1..][..i - 1], rx, req), TextOfAll(ps[i..], rx, req));
    }
  }

  /** Each member is put to every probe in turn; all but one of them pass. */
  method GetResultFromAndResultPredicate(p: ResultPredicate, rx: Regex, req: Request) returns (r: Found)
    ensures r == if p.AndResult? then AsFound(ResultText(p, rx, req)) else Ok(None)
    decreases p
  {
    if !p.AndResult? {
      return Ok(None);
    }
    var builder := "";
    assert p.results[0..] == p.results;
    AppendUnit(TextOfAll(p.results, rx, req));
    for i := 0 to |p.results|
      invariant TextOfAll(p.results, rx, req) == Append(Ok(builder), TextOfAll(p.results[i..], rx, req))
    {
      var result := p.results[i];
      assert p.results[i..][0] == result && p.results[i..][1..] == p.results[i + 1..];
      ghost var before := builder;
      if result.StringResult? && result.text != "" {
        builder := builder + result.text;
      }
      var found := GetResultFromRequestNodePredicate(result, rx, req);
      if found.Err? {
        return found;
      }
      if found.value.Some? {
        builder := builder + found.value.value;
      }
      found := GetResultFromResourceNamesPredicate(result, rx, req.resourceNames);
      if found.Err? {
        return found;
      }
      if found.value.Some? {
        builder := builder + found.value.value;
      }
      found := GetResultFromAndResultPredicate(result, rx, req);
      if found.Err? {
        return found;
      }
      if found.value.Some? {
        builder := builder + found.value.value;
      }
      AppendUnit(Ok(before));
      assert Ok(builder) == Append(Ok(before), ResultText(result, rx, req));
      AppendAssociates(Ok(before), ResultText(result, rx, req), TextOfAll(p.results[i + 1..], rx, req));
    }
    assert p.results[|p.results|..] == [];
    AppendUnit(Ok(builder));
    return Ok(Some(builder));
  }

  method GetResult(rule: Rule, rx: Regex, req: Request) returns (r: Text)
    ensures r == RuleText(rule, rx, req)
  {
    if rule.result.None? {
      return Ok("");
    }
    var p := rule.result.value;
    var found := GetResultFromRequestNodePredicate(p, rx, req);
    if found.Err? {
      return Err(found.error);
    }
    if found.value.Some? {
      return Ok(found.value.value);
    }
    found := GetResultFromAndResultPredicate(p, rx, req);
    if found.Err? {
      return Err(found.error);
    }
    if found.value.Some? {
      return Ok(found.value.value);
    }
    found := GetResultFromResourceNamesPredicate(p, rx, req.resourceNames);
    if found.Err? {
      return Err(found.error);
    }
    if found.value.Some? {
      return Ok(found.value.value);
    }
    return Ok(if p.StringResult? then p.text else "");
  }

  // ---------- nesting does not matter ----------

  /** The members of a result predicate that are not themselves and_results, left to right. */
  function Leaves(p: ResultPredicate): (ls: seq<ResultPredicate>)
    ensures forall l :: l in ls ==> !l.AndResult?
    decreases p, 0
  {
    if p.AndResult? then LeavesOfAll(p.results) else [p]
  }

  function LeavesOfAll(ps: seq<ResultPredicate>): (ls: seq<ResultPredicate>)
    ensures forall l :: l in ls ==> !l.AndResult?
    decreases ps, 1
  {
    if ps == [] then [] else Leaves(ps[0]) + LeavesOfAll(ps[1..])
  }

  /** However deep the and_results nest, the text is that of the leaves one after the other, and the
      error that of the first leaf with an error. */
  lemma {:induction false} TextIsThatOfLeaves(p: ResultPredicate, rx: Regex, req: Request)
    ensures ResultText(p, rx, req) == TextOfAll(Leaves(p), rx, req)
    decreases p, 0
  {
    if p.AndResult? {
      TextsAreThoseOfLeaves(p.results, rx, req);
    } else {
      assert Leaves(p)[1..] == [];
      AppendUnit(ResultText(p, rx, req));
    }
  }

  lemma {:induction false} TextsAreThoseOfLeaves(ps: seq<ResultPredicate>, rx: Regex, req: Request)
    ensures TextOfAll(ps, rx, req) == TextOfAll(LeavesOfAll(ps), rx, req)
    decreases ps, 1
  {
    if ps != [] {
      TextIsThatOfLeaves(ps[0], rx, req);
      TextsAreThoseOfLeaves(ps[1..], rx, req);
      var all, n := LeavesOfAll(ps), |Leaves(ps[0])|;
      assert all[..n] == Leaves(ps[0]) && all[n..] == LeavesOfAll(ps[1..]);
      TextOfAllSplits(all, n, rx, req);
    }
  }

  /** Regrouping the leaves of an and_result, in order, changes nothing. */
  lemma GroupingIsImmaterial(p: ResultPredicate, q: ResultPredicate, rx: Regex, req: Request)
    requires Leaves(p) == Leaves(q)
    ensures ResultText(p, rx, req) == ResultText(q, rx, req)
  {
    TextIsThatOfLeaves(p, rx, req);
    TextIsThatOfLeaves(q, rx, req);
  }
}
