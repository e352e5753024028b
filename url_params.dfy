/** What `processUrl` appends to a URL: one `sep + key + "=" + value` segment
    per persistent URL parameter, the first separator `?` unless the URL already
    holds a `?`, every later one `&`. The parameters live in a hash map whose
    iteration order is unspecified; here that order is an explicit enumeration
    of the map's keys, and the properties below hold for every enumeration. */
module UrlParams {

  type Param = (string, string)

  /** `order` lists every key of the map exactly once. */
  predicate IsEnumeration(order: seq<string>, keys: set<string>)
  {
    && (forall i, j :: 0 <= i < j < |order| ==> order[i] != order[j])
    && (forall k :: k in order ==> k in keys)
    && (forall k :: k in keys ==> k in order)
  }

  /** A map with no keys is visited by the empty enumeration only. */
  lemma EmptyEnumeration(order: seq<string>, keys: set<string>)
    requires IsEnumeration(order, keys)
    ensures keys == {} ==> order == []
  {
    if order != [] {
      assert order[0] in order;
    }
  }

  /** The map's entries in the order `order` visits them. */
  function Entries(m: map<string, string>, order: seq<string>): (ps: seq<Param>)
    requires forall k :: k in order ==> k in m
    ensures |ps| == |order|
    ensures forall i :: 0 <= i < |order| ==> ps[i] == (order[i], m[order[i]])
  {
    if order == [] then [] else [(order[0], m[order[0]])] + Entries(m, order[1..])
  }

  /** One appended segment. */
  function Segment(sep: char, p: Param): string
  {
    [sep] + p.0 + "=" + p.1
  }

  /** The text appended for `ps` when `first` precedes the first parameter. */
  function Query(first: char, ps: seq<Param>): string
    decreases ps
  {
    if ps == [] then [] else Segment(first, ps[0]) + Query('&', ps[1..])
  }

  /** The separator `processUrl` puts before the first parameter of `url`. */
  function FirstSeparator(url: string): char
  {
    if '?' in url then '&' else '?'
  }

  /** The URL `processUrl` returns for `url` and the parameters `ps`. */
  function ProcessedUrl(url: string, ps: seq<Param>): string
  {
    url + Query(FirstSeparator(url), ps)
  }

  /** `text` holds `seg` starting at position `at`. */
  predicate HasSegmentAt(text: string, at: nat, seg: string)
  {
    at + |seg| <= |text| && text[at..at + |seg|] == seg
  }

  /** The separator of the j-th segment. */
  function SeparatorAt(first: char, j: nat): char
  {
    if j == 0 then first else '&'
  }

  /** Appending one parameter appends exactly its segment. */
  lemma {:induction false} QueryAppend(first: char, ps: seq<Param>, p: Param)
    ensures Query(first, ps + [p]) == Query(first, ps) + Segment(SeparatorAt(first, |ps|), p)
    decreases ps
  {
    if ps == [] {
      assert [p][1..] == [];
    } else {
      assert (ps + [p])[1..] == ps[1..] + [p];
      QueryAppend('&', ps[1..], p);
    }
  }

  /** Splitting the parameters splits the query text. */
  lemma {:induction false} QuerySplit(first: char, ps: seq<Param>, qs: seq<Param>)
    ensures Query(first, ps + qs) == Query(first, ps) + Query(SeparatorAt(first, |ps|), qs)
    decreases ps
  {
    if ps == [] {
      assert ps + qs == qs;
    } else {
      assert (ps + qs)[1..] == ps[1..] + qs;
      QuerySplit('&', ps[1..], qs);
    }
  }

  /** Where the j-th segment starts inside the query text. */
  function Offset(first: char, ps: seq<Param>, j: nat): nat
    requires j <= |ps|
  {
    |Query(first, ps[..j])|
  }

  /** The query text holds the segment of every parameter, in the order
      visited, the first after `first` and every later one after `&`. */
  lemma SegmentAt(first: char, ps: seq<Param>, j: nat)
    requires j < |ps|
    ensures HasSegmentAt(Query(first, ps), Offset(first, ps, j), Segment(SeparatorAt(first, j), ps[j]))
  {
    assert ps == ps[..j] + [ps[j]] + ps[j + 1..];
    QuerySplit(first, ps[..j] + [ps[j]], ps[j + 1..]);
    QueryAppend(first, ps[..j], ps[j]);
  }

  /** With no parameters the URL is returned unchanged. */
  lemma ProcessedUrlNoParameters(url: string)
    ensures ProcessedUrl(url, []) == url
  {
  }

  /** The processed URL with its parts: the original URL, then the segment of
      every parameter. */
  lemma ProcessedUrlShape(url: string, ps: seq<Param>, j: nat)
    requires j < |ps|
    ensures url <= ProcessedUrl(url, ps)
    ensures HasSegmentAt(ProcessedUrl(url, ps), |url| + Offset(FirstSeparator(url), ps, j),
                         Segment(SeparatorAt(FirstSeparator(url), j), ps[j]))
  {
    var first := FirstSeparator(url);
    SegmentAt(first, ps, j);
    var q := Query(first, ps);
    var o := Offset(first, ps, j);
    var seg := Segment(SeparatorAt(first, j), ps[j]);
    assert ProcessedUrl(url, ps) == url + q;
    assert ProcessedUrl(url, ps)[..|url|] == url;
    assert (url + q)[|url| + o..|url| + o + |seg|] == q[o..o + |seg|];
  }

  /** The first separator is `?` exactly when the URL had none, and the
      processed URL then holds a `?`. */
  lemma ProcessedUrlFirstSeparator(url: string, ps: seq<Param>)
    requires ps != []
    ensures |ProcessedUrl(url, ps)| > |url|
    ensures ProcessedUrl(url, ps)[|url|] == '?' <==> '?' !in url
    ensures '?' in ProcessedUrl(url, ps)
  {
    assert ProcessedUrl(url, ps)[|url|] == FirstSeparator(url);
  }

  /** One turn of the `processUrl` loop: the separator it chooses by looking
      for a `?` in the URL built so far followed by the parameter is exactly
      the next segment. */
  lemma ProcessedUrlAppend(url: string, ps: seq<Param>, p: Param)
    ensures ProcessedUrl(url, ps + [p]) ==
            ProcessedUrl(url, ps) + Segment(if '?' !in ProcessedUrl(url, ps) then '?' else '&', p)
  {
    QueryAppend(FirstSeparator(url), ps, p);
    if ps != [] {
      ProcessedUrlFirstSeparator(url, ps);
    } else {
      assert ProcessedUrl(url, ps) == url;
    }
  }

  /** Whatever order the map is visited in, every parameter of the map is
      appended, as `key=value` after its separator, at the position its place
      in that order gives it. */
  lemma ParameterAppended(url: string, m: map<string, string>, order: seq<string>, k: string)
    requires IsEnumeration(order, m.Keys)
    requires k in m
    ensures exists j :: 0 <= j < |order| && order[j] == k &&
              HasSegmentAt(ProcessedUrl(url, Entries(m, order)),
                           |url| + Offset(FirstSeparator(url), Entries(m, order), j),
                           Segment(SeparatorAt(FirstSeparator(url), j), (k, m[k])))
  {
    var j :| 0 <= j < |order| && order[j] == k;
    var ps := Entries(m, order);
    assert ps[j] == (k, m[k]);
    ProcessedUrlShape(url, ps, j);
  }
}
