/** The one way every oracle consumer in backend/its.py reads the oracle's
    free-text reply: re.search(r"\{.*\}", reply, re.DOTALL), then
    json.loads of the matched text. */
module Extraction {
  import opened Json

  /** The pattern \{.*\} under re.DOTALL matches s[i..j] exactly: a '{',
      anything at all (newlines included), then a '}'. */
  predicate MatchesAt(s: string, i: int, j: int)
  {
    0 <= i && i + 2 <= j <= |s| && s[i] == '{' && s[j - 1] == '}'
  }

  /** Index of the first occurrence of c in s. */
  function FirstIndex(s: string, c: char): (r: Option<nat>)
    ensures r.Some? ==> r.value < |s| && s[r.value] == c
    ensures r.Some? ==> forall k :: 0 <= k < r.value ==> s[k] != c
    ensures r.None? ==> forall k :: 0 <= k < |s| ==> s[k] != c
  {
    if s == [] then None
    else if s[0] == c then Some(0)
    else match FirstIndex(s[1..], c)
      case None => None
      case Some(k) => Some(k + 1)
  }

  /** Index of the last occurrence of c in s. */
  function LastIndex(s: string, c: char): (r: Option<nat>)
    ensures r.Some? ==> r.value < |s| && s[r.value] == c
    ensures r.Some? ==> forall k :: r.value < k < |s| ==> s[k] != c
    ensures r.None? ==> forall k :: 0 <= k < |s| ==> s[k] != c
  {
    if s == [] then None
    else if s[|s| - 1] == c then Some(|s| - 1)
    else LastIndex(s[..|s| - 1], c)
  }

  /** The bounds (start, end) of what re.search returns: the leftmost start
      at which the pattern matches at all, and there the longest match,
      because `.*` is greedy. Computed as first '{' to last '}'. */
  function Search(s: string): (r: Option<(nat, nat)>)
    ensures r.None? <==> forall i, j :: !MatchesAt(s, i, j)
    ensures r.Some? ==> MatchesAt(s, r.value.0, r.value.1)
    ensures r.Some? ==> forall i, j :: MatchesAt(s, i, j) ==> r.value.0 <= i
    ensures r.Some? ==> forall j :: MatchesAt(s, r.value.0, j) ==> j <= r.value.1
  {
    match (FirstIndex(s, '{'), LastIndex(s, '}'))
    case (Some(i), Some(j)) =>
      if i < j then assert MatchesAt(s, i, j + 1); Some((i, j + 1)) else None
    case _ => None
  }

  /** match.group(0), or None when there is no match. */
  function JsonSpan(s: string): (r: Option<string>)
    ensures r.None? <==> forall i, j :: !MatchesAt(s, i, j)
    ensures r.Some? ==> 2 <= |r.value| && r.value[0] == '{' && r.value[|r.value| - 1] == '}'
    ensures r.Some? ==> exists i, j :: MatchesAt(s, i, j) && r.value == s[i..j]
    // the very span Search delimits: from the first '{' to the last '}'
    ensures r.Some? ==> Search(s).Some? && r.value == s[Search(s).value.0..Search(s).value.1]
  {
    match Search(s)
    case None => None
    case Some((i, j)) => Some(s[i..j])
  }

  /** What an oracle consumer ends up with: no match, a span json.loads
      rejects, or the decoded value. */
  datatype Decoded = NoMatch | Malformed(span: string) | Parsed(value: Json)

  function Decode(reply: string, parse: string -> Option<Json>): Decoded
  {
    match JsonSpan(reply)
    case None => NoMatch
    case Some(span) =>
      match parse(span)
      case None => Malformed(span)
      case Some(v) => Parsed(v)
  }

  /** The span runs from the first '{' to the last '}' of the whole reply,
      so trailing commentary that contains a '}' is swallowed into it. */
  lemma GreedySpanExample()
    ensures JsonSpan("ok {\"a\": 1} bye}") == Some("{\"a\": 1} bye}")
  {
    var s := "ok {\"a\": 1} bye}";
    assert MatchesAt(s, 3, |s|);
    assert forall k | 0 <= k < 3 :: s[k] != '{';
    var r := Search(s);
    assert r.Some? && r.value.0 <= 3 && |s| <= r.value.1;
    assert r.value == (3, |s|);
    assert s[3..|s|] == s[3..] == "{\"a\": 1} bye}";
  }

  /** A reply with an opening brace and no closing one has no span. */
  lemma UnclosedReplyHasNoSpan()
    ensures JsonSpan("Sure! ```json {garbage") == None
  {
    var s := "Sure! ```json {garbage";
    assert '}' !in s;
  }
}
