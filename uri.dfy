/** A reader for the parts of a redirect URI that the authorize endpoints
    write: the fragment after the first '#', the query between the first '?'
    and the fragment, and the '&'-separated fields of a query. It is the
    independent partner against which the redirect strings are checked. */
module Uri {
  import opened Types

  /** Splits `s` at the first occurrence of `c`: the text before it, and the
      text after it when `c` occurs at all. */
  function SplitAt(s: string, c: char): (r: (string, Option<string>))
    ensures c !in r.0
    ensures r.1.None? ==> r.0 == s
    ensures r.1.Some? ==> s == r.0 + [c] + r.1.value
    decreases |s|
  {
    if s == [] then ([], None)
    else if s[0] == c then ([], Some(s[1..]))
    else
      var (before, after) := SplitAt(s[1..], c);
      ([s[0]] + before, after)
  }

  /** Splitting just after a prefix free of `c` gives back that prefix and the rest. */
  lemma {:induction false} SplitAtFirst(a: string, c: char, b: string)
    requires c !in a
    ensures SplitAt(a + [c] + b, c) == (a, Some(b))
  {
    if a == [] {
      assert a + [c] + b == [c] + b;
    } else {
      var s := a + [c] + b;
      assert s[0] == a[0] != c;
      assert s[1..] == a[1..] + [c] + b;
      SplitAtFirst(a[1..], c, b);
      assert [a[0]] + a[1..] == a;
    }
  }

  /** A string free of `c` is not split at all. */
  lemma SplitAtAbsent(s: string, c: char)
    requires c !in s
    ensures SplitAt(s, c) == (s, None)
  {
  }

  /** The fragment of a URI: what follows its first '#'. */
  function Fragment(uri: string): Option<string> {
    SplitAt(uri, '#').1
  }

  /** The query of a URI: what follows the first '?' of the part before the fragment. */
  function QueryPart(uri: string): Option<string> {
    SplitAt(SplitAt(uri, '#').0, '?').1
  }

  /** The '&'-separated fields of a query string, in order. */
  function Fields(q: string): (r: seq<string>)
    ensures |r| >= 1
    ensures forall i :: 0 <= i < |r| ==> '&' !in r[i]
    decreases |q|
  {
    var (head, rest) := SplitAt(q, '&');
    if rest.None? then [head] else [head] + Fields(rest.value)
  }

  /** Fields joined back with '&'. */
  function Join(fields: seq<string>): string
    requires |fields| >= 1
  {
    if |fields| == 1 then fields[0] else fields[0] + "&" + Join(fields[1..])
  }

  /** Splitting a join of '&'-free fields gives back those fields. */
  lemma {:induction false} FieldsJoin(fields: seq<string>)
    requires |fields| >= 1
    requires forall i :: 0 <= i < |fields| ==> '&' !in fields[i]
    ensures Fields(Join(fields)) == fields
  {
    if |fields| == 1 {
      SplitAtAbsent(fields[0], '&');
    } else {
      SplitAtFirst(fields[0], '&', Join(fields[1..]));
      FieldsJoin(fields[1..]);
    }
  }

  /** Joining '#'-free fields gives a '#'-free string. */
  lemma {:induction false} JoinFree(fields: seq<string>)
    requires |fields| >= 1
    requires forall i :: 0 <= i < |fields| ==> '#' !in fields[i]
    ensures '#' !in Join(fields)
  {
    if |fields| > 1 {
      JoinFree(fields[1..]);
    }
  }

  /** Splitting a concatenation at a '&' it was joined by gives the fields of both sides. */
  lemma {:induction false} FieldsAppend(a: string, b: string)
    ensures Fields(a + "&" + b) == Fields(a) + Fields(b)
    decreases |a|
  {
    var (head, rest) := SplitAt(a, '&');
    if rest.None? {
      SplitAtFirst(a, '&', b);
    } else {
      var t := rest.value;
      assert a + "&" + b == head + ['&'] + (t + "&" + b);
      SplitAtFirst(head, '&', t + "&" + b);
      FieldsAppend(t, b);
    }
  }

  /** Appending '&' and '#'-free text to a fragment-free URI that has a query
      extends that query and adds no fragment. */
  lemma QueryExtended(uri: string, more: string)
    requires '#' !in uri && '#' !in more && '?' in uri
    ensures QueryPart(uri).Some?
    ensures Fragment(uri + "&" + more) == None
    ensures QueryPart(uri + "&" + more) == Some(QueryPart(uri).value + "&" + more)
  {
    SplitAtAbsent(uri, '#');
    SplitAtAbsent(uri + "&" + more, '#');
    var (base, rest) := SplitAt(uri, '?');
    assert rest.Some?;
    assert uri + "&" + more == base + ['?'] + (rest.value + "&" + more);
    SplitAtFirst(base, '?', rest.value + "&" + more);
  }

  lemma JoinPair(a: string, b: string)
    ensures Join([a, b]) == a + "&" + b
  {
    assert [a, b][1..] == [b];
  }

  lemma JoinTriple(a: string, b: string, c: string)
    ensures Join([a, b, c]) == a + "&" + b + "&" + c
  {
    assert [a, b, c][1..] == [b, c];
    JoinPair(b, c);
  }
}
