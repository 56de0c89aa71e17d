/**
 * Reading a URL's query component back into its `name=value` fields, the way
 * the identity provider reads the authorization redirect: the query is the
 * text after the first `?`, fields are separated by `&`, and a field's name
 * ends at its first `=`.  Percent-decoding is not performed (see README).
 */
module Query {
  import opened Wrappers

  /** The text before and after the first `c` in `s`, or None when `s` has no `c`. */
  function Cut(s: string, c: char): (r: Option<(string, string)>)
    ensures r.None? <==> c !in s
    ensures r.Some? ==> c !in r.value.0 && s == r.value.0 + [c] + r.value.1
  {
    if s == [] then None
    else if s[0] == c then Some(([], s[1..]))
    else
      match Cut(s[1..], c)
      case None => None
      case Some((before, after)) => Some(([s[0]] + before, after))
  }

  /** Cutting at the separator that was put after a separator-free prefix gives the two parts back. */
  lemma {:induction false} CutJoined(before: string, c: char, after: string)
    requires c !in before
    ensures Cut(before + [c] + after, c) == Some((before, after))
    decreases |before|
  {
    var s := before + [c] + after;
    if before != [] {
      assert s[1..] == before[1..] + [c] + after;
      CutJoined(before[1..], c, after);
      assert [s[0]] + before[1..] == before;
    } else {
      assert s[1..] == after;
    }
  }

  /** The parts joined with `c` between consecutive ones. */
  function Join(parts: seq<string>, c: char): (s: string)
    requires |parts| >= 1
  {
    if |parts| == 1 then parts[0] else parts[0] + [c] + Join(parts[1..], c)
  }

  /** `s` split at every `c`: the separator-free parts that join back to `s`. */
  function Split(s: string, c: char): (parts: seq<string>)
    ensures |parts| >= 1
    ensures forall i :: 0 <= i < |parts| ==> c !in parts[i]
    ensures Join(parts, c) == s
    decreases |s|
  {
    match Cut(s, c)
    case None => [s]
    case Some((before, after)) => [before] + Split(after, c)
  }

  /** One `name=value` field of a query. */
  datatype Param = Param(name: string, value: string)

  /** The text of a field. */
  function FieldText(p: Param): string {
    p.name + "=" + p.value
  }

  /** The query text of a non-empty list of fields: their texts joined with `&`. */
  function QueryText(ps: seq<Param>): string
    requires |ps| >= 1
  {
    if |ps| == 1 then FieldText(ps[0]) else FieldText(ps[0]) + "&" + QueryText(ps[1..])
  }

  /** A field's name ends at its first `=`; a field without `=` is malformed. */
  function ParseField(f: string): (r: Option<Param>)
    ensures r.Some? ==> FieldText(r.value) == f
  {
    match Cut(f, '=')
    case None => None
    case Some((name, value)) => Some(Param(name, value))
  }

  /** Every field parsed, or None when one is malformed. */
  function ParseFields(fs: seq<string>): (r: Option<seq<Param>>)
    ensures r.Some? ==> |r.value| == |fs|
  {
    if fs == [] then Some([])
    else
      match (ParseField(fs[0]), ParseFields(fs[1..]))
      case (Some(p), Some(ps)) => Some([p] + ps)
      case _ => None
  }

  /** The fields of a URL's query, or None when it has no `?` or a field is malformed. */
  function QueryParams(url: string): (r: Option<seq<Param>>)
  {
    match Cut(url, '?')
    case None => None
    case Some((_, query)) => ParseFields(Split(query, '&'))
  }

  /** A field that can be written raw into a query and read back unchanged. */
  predicate Embeddable(p: Param) {
    '=' !in p.name && '&' !in p.name && '&' !in p.value
  }

  /** Splitting the query text at `&` gives back the fields' texts, and parsing those gives back the fields. */
  lemma {:induction false} ParseQueryText(ps: seq<Param>)
    requires |ps| >= 1
    requires forall i :: 0 <= i < |ps| ==> Embeddable(ps[i])
    ensures ParseFields(Split(QueryText(ps), '&')) == Some(ps)
    decreases |ps|
  {
    var f := FieldText(ps[0]);
    assert '&' !in f by {
      assert f == ps[0].name + "=" + ps[0].value;
    }
    CutJoined(ps[0].name, '=', ps[0].value);
    assert ParseField(f) == Some(ps[0]) by {
      assert f == ps[0].name + ['='] + ps[0].value;
    }
    if |ps| == 1 {
      assert QueryText(ps) == f;
      assert Split(f, '&') == [f];
      assert ParseFields([f][1..]) == Some([]);
      assert [f][0] == f;
      assert [ps[0]] + [] == [ps[0]];
      assert ps == [ps[0]];
    } else {
      ParseQueryText(ps[1..]);
      CutJoined(f, '&', QueryText(ps[1..]));
      assert ps == [ps[0]] + ps[1..];
    }
  }

  /** A URL built as base, `?`, and the fields reads back as exactly those fields. */
  lemma QueryRoundTrip(base: string, ps: seq<Param>)
    requires '?' !in base
    requires |ps| >= 1
    requires forall i :: 0 <= i < |ps| ==> Embeddable(ps[i])
    ensures QueryParams(base + "?" + QueryText(ps)) == Some(ps)
  {
    CutJoined(base, '?', QueryText(ps));
    ParseQueryText(ps);
  }
}
