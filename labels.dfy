/**
 * Label pairs and the label-selector rendering of `fmtLabels`
 * (internal/scraper/scraper.go:616-646), plus the base label set that
 * `collectData` attaches to every series and stream (:320-329).
 * Order inside a label list is append order and is observable.
 */
module Labels {
  import opened Common
  import opened Text

  /** `labelPair` and `prompb.Label`: a name and a value. */
  datatype LabelPair = LabelPair(name: string, value: string)

  /**
   * One rendered pair: `name="value"`, with no escaping of either part. A
   * pair whose name holds no `=` and whose value holds no `"` reads back
   * whole.
   */
  function PairText(l: LabelPair): (r: string)
    ensures '=' !in l.name && '"' !in l.value ==> ParsePair(r) == Some((l, ""))
  {
    var text := l.name + "=\"" + l.value + "\"";
    ParsePairOf(l, "");
    assert text + "" == text;
    text
  }

  /** A pair rendered piece by piece, as the selector loop writes it. */
  lemma PairTextParts(l: LabelPair)
    ensures l.name + "=" + "\"" + l.value + "\"" == PairText(l)
  {
    ConcatAssoc(l.name, "=", "\"");
  }

  /**
   * The rendered pairs separated by commas. When no name holds `=` and no
   * value holds `"`, the text reads back as the same pairs, in order.
   */
  function JoinPairs(ls: seq<LabelPair>): (r: string)
    requires |ls| > 0
    ensures Plain(ls) ==> ParsePairs(r) == Some(ls)
  {
    if |ls| == 1 then
      ParsePairsSingle(ls);
      PairText(ls[0])
    else
      var rest := JoinPairs(ls[1..]);
      ParsePairsFront(ls, rest);
      PairText(ls[0]) + "," + rest
  }

  /** The selector string: empty for no labels, otherwise the pairs between braces. */
  function FormatLabels(ls: seq<LabelPair>): (r: string)
    ensures r == [] <==> ls == []
    ensures ls != [] ==> r[0] == '{' && r[|r| - 1] == '}'
  {
    if ls == [] then "" else "{" + JoinPairs(ls) + "}"
  }

  lemma {:induction false} JoinPairsSnoc(ls: seq<LabelPair>, l: LabelPair)
    requires |ls| > 0
    ensures JoinPairs(ls + [l]) == JoinPairs(ls) + "," + PairText(l)
    decreases |ls|
  {
    if |ls| > 1 {
      assert (ls + [l])[1..] == ls[1..] + [l];
      JoinPairsSnoc(ls[1..], l);
    } else {
      assert ls + [l] == [ls[0], l];
      assert [ls[0], l][1..] == [l];
    }
  }

  /** One turn of the selector loop: the text so far, a comma unless first, then the next pair. */
  lemma SelectorStep(labels: seq<LabelPair>, i: nat)
    requires i < |labels|
    ensures (if i == 0 then "{" else "{" + JoinPairs(labels[..i]) + ",")
            + (labels[i].name + "=" + "\"" + labels[i].value + "\"")
            == "{" + JoinPairs(labels[..i + 1])
  {
    var text := labels[i].name + "=" + "\"" + labels[i].value + "\"";
    PairTextParts(labels[i]);
    if i > 0 {
      var done := JoinPairs(labels[..i]);
      assert labels[..i + 1] == labels[..i] + [labels[i]];
      JoinPairsSnoc(labels[..i], labels[i]);
      ConcatAssoc("{", done, ",");
      ConcatAssoc("{", done + ",", text);
    } else {
      assert labels[..1] == [labels[0]];
    }
  }

  /** `fmtLabels`: writes the selector into a builder, pair by pair. */
  method FmtLabels(labels: seq<LabelPair>) returns (s: string)
    ensures s == FormatLabels(labels)
  {
    if |labels| == 0 {
      return "";
    }
    s := "{";
    for i := 0 to |labels|
      invariant i == 0 ==> s == "{"
      invariant i > 0 ==> s == "{" + JoinPairs(labels[..i])
    {
      if i > 0 {
        s := s + ",";
      }
      var text := labels[i].name + "=" + "\"" + labels[i].value + "\"";
      SelectorStep(labels, i);
      s := s + text;
    }
    assert labels[..|labels|] == labels;
    s := s + "}";
  }

  /** Reads a double-quoted value off the front of `s`, with what follows its closing quote. */
  function Unquote(s: string): (r: Option<(string, string)>)
    ensures r.Some? ==> |r.value.1| < |s|
  {
    if |s| == 0 || s[0] != '"' then None else SplitFirst(s[1..], '"')
  }

  /** Reads one `name="value"` pair off the front of `s`, with what follows its closing quote. */
  function ParsePair(s: string): (r: Option<(LabelPair, string)>)
    ensures r.Some? ==> |r.value.1| < |s|
  {
    match SplitFirst(s, '=')
    case None => None
    case Some(nameRest) =>
      match Unquote(nameRest.1)
      case None => None
      case Some(valueAfter) => Some((LabelPair(nameRest.0, valueAfter.0), valueAfter.1))
  }

  /** Reads back comma-separated `name="value"` pairs: the inverse of `JoinPairs` on plain labels. */
  function ParsePairs(s: string): Option<seq<LabelPair>>
    decreases |s|
  {
    match ParsePair(s)
    case None => None
    case Some(first) =>
      var after := first.1;
      if after == [] then Some([first.0])
      else if after[0] != ',' then None
      else match ParsePairs(after[1..])
        case None => None
        case Some(more) => Some([first.0] + more)
  }

  /** Reads back a selector string produced by `FormatLabels`. */
  function ParseLabels(s: string): Option<seq<LabelPair>>
  {
    if s == [] then Some([])
    else if |s| >= 2 && s[0] == '{' && s[|s| - 1] == '}' then ParsePairs(s[1..|s| - 1])
    else None
  }

  /** Labels whose rendering is unambiguous: no `=` in a name, no `"` in a value. */
  predicate Plain(ls: seq<LabelPair>)
  {
    forall i :: 0 <= i < |ls| ==> '=' !in ls[i].name && '"' !in ls[i].value
  }

  /** A quoted value without inner quotes is read off whole. */
  lemma UnquoteOf(value: string, tail: string)
    requires '"' !in value
    ensures Unquote(['"'] + value + ['"'] + tail) == Some((value, tail))
  {
    var s := ['"'] + value + ['"'] + tail;
    assert s[1..] == value + ['"'] + tail;
    SplitFirstOfJoin(value, '"', tail);
  }

  /** A pair rendered with `name=` in front of a quoted value and any text after it is read off whole. */
  lemma ParsePairOf(l: LabelPair, tail: string)
    ensures '=' !in l.name && '"' !in l.value
            ==> ParsePair(l.name + "=\"" + l.value + "\"" + tail) == Some((l, tail))
  {
    if '=' !in l.name && '"' !in l.value {
      assert l.name + "=\"" + l.value + "\"" + tail == l.name + ['='] + (['"'] + l.value + ['"'] + tail);
      SplitFirstOfJoin(l.name, '=', ['"'] + l.value + ['"'] + tail);
      UnquoteOf(l.value, tail);
    }
  }

  lemma PlainTail(ls: seq<LabelPair>)
    requires |ls| > 0 && Plain(ls)
    ensures Plain(ls[1..])
  {
    forall i | 0 <= i < |ls[1..]| ensures '=' !in ls[1..][i].name && '"' !in ls[1..][i].value {
      assert ls[1..][i] == ls[i + 1];
    }
  }

  /** `ParsePairs` reads the first pair, then either stops or reads the rest after a comma. */
  lemma ParsePairsCons(s: string, l: LabelPair, after: string, more: seq<LabelPair>)
    requires ParsePair(s) == Some((l, after))
    requires (after == [] && more == []) || (|after| > 0 && after[0] == ',' && ParsePairs(after[1..]) == Some(more))
    ensures ParsePairs(s) == Some([l] + more)
  {
    if after == [] {
      assert [l] + more == [l];
    }
  }

  /** A single plain pair reads back from its text. */
  lemma ParsePairsSingle(ls: seq<LabelPair>)
    requires |ls| == 1
    ensures Plain(ls) ==> ParsePairs(PairText(ls[0])) == Some(ls)
  {
    if Plain(ls) {
      ParsePairsCons(PairText(ls[0]), ls[0], "", []);
      assert [ls[0]] + [] == ls;
    }
  }

  /** The first plain pair, a comma and text that reads back as the other pairs read back as all of them. */
  lemma ParsePairsFront(ls: seq<LabelPair>, rest: string)
    requires |ls| > 1
    requires Plain(ls[1..]) ==> ParsePairs(rest) == Some(ls[1..])
    ensures Plain(ls) ==> ParsePairs(PairText(ls[0]) + "," + rest) == Some(ls)
  {
    if Plain(ls) {
      var l := ls[0];
      var after := "," + rest;
      PlainTail(ls);
      ParsePairOf(l, after);
      assert PairText(l) + "," + rest == l.name + "=\"" + l.value + "\"" + after;
      assert after[1..] == rest;
      ParsePairsCons(PairText(l) + "," + rest, l, after, ls[1..]);
      HeadThenTail(ls);
    }
  }

  /** Rendering plain labels loses nothing: the selector parses back to the same list, in order. */
  lemma FormatLabelsRoundTrip(ls: seq<LabelPair>)
    requires Plain(ls)
    ensures ParseLabels(FormatLabels(ls)) == Some(ls)
  {
    if ls != [] {
      var s := FormatLabels(ls);
      assert s[1..|s| - 1] == JoinPairs(ls);
    }
  }

  /**
   * Without escaping, a value holding `",` followed by `name="` renders
   * like two separate labels, whatever the names and values.
   */
  lemma FormatLabelsNotInjective(a: string, x: string, b: string, y: string)
    ensures FormatLabels([LabelPair(a, x + "\"," + b + "=\"" + y)])
         == FormatLabels([LabelPair(a, x), LabelPair(b, y)])
  {
    var one, two := [LabelPair(a, x + "\"," + b + "=\"" + y)], [LabelPair(a, x), LabelPair(b, y)];
    var text := a + "=\"" + x + "\"," + b + "=\"" + y + "\"";
    assert JoinPairs(one) == text by {
      assert JoinPairs(one) == PairText(one[0]);
    }
    assert JoinPairs(two) == text by {
      assert two[1..] == [LabelPair(b, y)];
      assert JoinPairs(two) == PairText(two[0]) + "," + PairText(two[1]);
    }
  }

  /** The labels `collectData` derives from the check's own labels: `label_<name>` each, in order. */
  function CheckLabels(labels: seq<LabelPair>): (r: seq<LabelPair>)
    ensures |r| == |labels|
    ensures forall i :: 0 <= i < |labels| ==> r[i] == LabelPair("label_" + labels[i].name, labels[i].value)
  {
    if labels == [] then [] else [LabelPair("label_" + labels[0].name, labels[0].value)] + CheckLabels(labels[1..])
  }

  /** One more check label appends its `label_` pair. */
  lemma CheckLabelsSnoc(labels: seq<LabelPair>, l: LabelPair)
    ensures CheckLabels(labels + [l]) == CheckLabels(labels) + [LabelPair("label_" + l.name, l.value)]
  {
    var r := CheckLabels(labels + [l]);
    assert (labels + [l])[|labels|] == l;
    assert forall i :: 0 <= i < |labels| ==> (labels + [l])[i] == labels[i];
  }

  /** The base label set: `check_id` (decimal), `check_name`, `endpoint`, `probe`, then the check's labels. */
  function BaseLabels(checkId: int, checkName: string, endpoint: string, probeName: string,
                      labels: seq<LabelPair>): (r: seq<LabelPair>)
    ensures |r| == 4 + |labels|
    ensures r[0].name == "check_id" && ParseInt(r[0].value) == Some(checkId)
    ensures r[1] == LabelPair("check_name", checkName)
    ensures r[2] == LabelPair("endpoint", endpoint)
    ensures r[3] == LabelPair("probe", probeName)
    ensures forall i :: 0 <= i < |labels| ==> r[4 + i] == LabelPair("label_" + labels[i].name, labels[i].value)
  {
    FormatIntRoundTrip(checkId);
    var fixed := [ LabelPair("check_id", FormatInt(checkId)),
                   LabelPair("check_name", checkName),
                   LabelPair("endpoint", endpoint),
                   LabelPair("probe", probeName) ];
    var own := CheckLabels(labels);
    assert forall i :: 0 <= i < |labels| ==> (fixed + own)[4 + i] == own[i];
    fixed + own
  }
}
