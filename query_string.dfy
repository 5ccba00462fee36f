/**
 * Query strings and form bodies: ordered `key=value` pairs joined with
 * `&`, as the client writes them into URLs and token requests, and the
 * reading that recovers the pairs.  Percent-escaping is not modelled:
 * keys and values are written as they are.
 */
module QueryString {
  import opened Wrappers
  import opened Text

  /** Parameters in insertion order, as a Python dict keeps them. */
  type Params = seq<(string, string)>

  function FieldText(p: (string, string)): string {
    p.0 + "=" + p.1
  }

  /** The pairs joined with `&`; no pairs give the empty string. */
  function Encode(ps: Params): string
    decreases |ps|
  {
    if |ps| == 0 then ""
    else if |ps| == 1 then FieldText(ps[0])
    else FieldText(ps[0]) + "&" + Encode(ps[1..])
  }

  /** One `key=value` piece, split at its first `=`; a piece without one has an empty value. */
  function ParseField(s: string): (string, string) {
    if '=' in s then (s[..IndexOf(s, '=')], s[IndexOf(s, '=') + 1..]) else (s, "")
  }

  function Decode(s: string): (ps: Params) {
    var pieces := Split(s, '&');
    seq(|pieces|, i requires 0 <= i < |pieces| => ParseField(pieces[i]))
  }

  /** No key holds `&` or `=` and no value holds `&`: the pairs can be told apart again. */
  predicate Plain(ps: Params) {
    forall i :: 0 <= i < |ps| ==> '&' !in ps[i].0 && '=' !in ps[i].0 && '&' !in ps[i].1
  }

  /** The value of the first pair with key `key`. */
  function Lookup<V>(ps: seq<(string, V)>, key: string): (r: Option<V>)
    ensures r.Some? <==> exists i :: 0 <= i < |ps| && ps[i].0 == key
    ensures r.Some? ==> exists i :: 0 <= i < |ps| && ps[i] == (key, r.value)
    decreases |ps|
  {
    if |ps| == 0 then None
    else if ps[0].0 == key then Some(ps[0].1)
    else Lookup(ps[1..], key)
  }

  /** The first pair with the key decides the lookup. */
  lemma {:induction false} LookupAt<V>(ps: seq<(string, V)>, i: nat, key: string)
    requires i < |ps| && ps[i].0 == key
    requires forall j :: 0 <= j < i ==> ps[j].0 != key
    ensures Lookup(ps, key) == Some(ps[i].1)
    decreases i
  {
    if i > 0 {
      LookupAt(ps[1..], i - 1, key);
    }
  }

  lemma {:induction false} LookupAbsent<V>(ps: seq<(string, V)>, key: string)
    requires forall j :: 0 <= j < |ps| ==> ps[j].0 != key
    ensures Lookup(ps, key) == None
    decreases |ps|
  {
    if |ps| > 0 {
      LookupAbsent(ps[1..], key);
    }
  }

  lemma FieldRoundTrip(p: (string, string))
    requires '=' !in p.0
    ensures ParseField(FieldText(p)) == p
  {
    var s := FieldText(p);
    assert s[|p.0|] == '=';
    assert forall j :: 0 <= j < |p.0| ==> s[j] == p.0[j];
    assert IndexOf(s, '=') == |p.0|;
    assert s[..|p.0|] == p.0;
    assert s[|p.0| + 1..] == p.1;
  }

  lemma {:induction false} SplitEncode(ps: Params)
    requires |ps| >= 1 && Plain(ps)
    ensures Split(Encode(ps), '&') == seq(|ps|, i requires 0 <= i < |ps| => FieldText(ps[i]))
    decreases |ps|
  {
    var first := FieldText(ps[0]);
    assert '&' !in first by {
      assert first == ps[0].0 + "=" + ps[0].1;
    }
    if |ps| == 1 {
      SplitNoSep(first, '&');
    } else {
      SplitEncode(ps[1..]);
      SplitJoin(first, Encode(ps[1..]), '&');
    }
  }

  /** Reading back a non-empty parameter list gives the same pairs in the same order. */
  lemma EncodeRoundTrip(ps: Params)
    requires |ps| >= 1 && Plain(ps)
    ensures Decode(Encode(ps)) == ps
  {
    SplitEncode(ps);
    forall i | 0 <= i < |ps|
      ensures Decode(Encode(ps))[i] == ps[i]
    {
      FieldRoundTrip(ps[i]);
    }
  }

  /** Cut at its first `?`, `url` is `base` followed by a query that reads back as `ps`. */
  predicate ReadsBack(url: string, base: string, ps: Params) {
    '?' in url && url[..IndexOf(url, '?')] == base && Decode(url[IndexOf(url, '?') + 1..]) == ps
  }

  /** A URL made of a base without `?` and a query reads back as that base and those pairs. */
  lemma QueryReadsBack(base: string, ps: Params)
    requires '?' !in base && |ps| >= 1 && Plain(ps)
    ensures ReadsBack(base + "?" + Encode(ps), base, ps)
  {
    var url := base + "?" + Encode(ps);
    assert url[|base|] == '?';
    assert forall j :: 0 <= j < |base| ==> url[j] == base[j];
    assert IndexOf(url, '?') == |base|;
    assert url[..|base|] == base;
    assert url[|base| + 1..] == Encode(ps);
    EncodeRoundTrip(ps);
  }
}
