/** Key derivation: the canonical request string and its hex digest. */
module KeyCodec {
  import opened Common
  import opened Sorting

  /** Decoded query parameters: each name with its values in request order. */
  type Query = map<string, seq<string>>

  /** An MD5 digest: 16 bytes. The hash itself is a parameter of the model. */
  type Digest = d: seq<byte> | |d| == 16
    witness [0, 0, 0, 0, 0, 0, 0, 0, 0, 0, 0, 0, 0, 0, 0, 0]

  /** One `name=value` parameter token. */
  function Token(name: string, value: string): string {
    name + "=" + value
  }

  /** The tokens of one name, one per value, in the values' order. */
  function Tokens(name: string, values: seq<string>): seq<string> {
    seq(|values|, i requires 0 <= i < |values| => Token(name, values[i]))
  }

  predicate AllIn(q: Query, names: seq<string>) {
    forall i :: 0 <= i < |names| ==> names[i] in q
  }

  /** The parameter tokens of the listed names, name after name. */
  function Params(q: Query, names: seq<string>): seq<string>
    requires AllIn(q, names)
  {
    if names == [] then []
    else
      var last := names[|names| - 1];
      Params(q, names[..|names| - 1]) + Tokens(last, q[last])
  }

  /** The number of values of the listed names. */
  function ValueCount(q: Query, names: seq<string>): nat
    requires AllIn(q, names)
  {
    if names == [] then 0
    else ValueCount(q, names[..|names| - 1]) + |q[names[|names| - 1]]|
  }

  /** `strings.Join`. */
  function Join(parts: seq<string>, sep: string): string {
    if |parts| == 0 then ""
    else if |parts| == 1 then parts[0]
    else parts[0] + sep + Join(parts[1..], sep)
  }

  /** The canonical request string: `path?` followed by the parameters of the
      names in increasing order, joined by `&`. */
  ghost function CanonicalKey(path: string, q: Query): string {
    path + "?" + Join(Params(q, SortedElements(q.Keys)), "&")
  }

  /** The first loop of `generateCacheKey`: the names, in whatever order the
      map yields them. */
  method CollectNames(query: Query) returns (keys: seq<string>)
    ensures multiset(keys) == multiset(query.Keys)
  {
    keys := [];
    var rest := query.Keys;
    while rest != {}
      invariant rest <= query.Keys
      invariant multiset(keys) + multiset(rest) == multiset(query.Keys)
      decreases rest
    {
      var k :| k in rest;
      assert multiset(rest) == multiset(rest - {k}) + multiset{k} by {
        assert rest == (rest - {k}) + {k};
      }
      keys := keys + [k];
      rest := rest - {k};
    }
  }

  lemma TokensSnoc(name: string, values: seq<string>, j: nat)
    requires j < |values|
    ensures Tokens(name, values[..j + 1]) == Tokens(name, values[..j]) + [Token(name, values[j])]
  {
  }

  /** The nested loops of `generateCacheKey`: one token per value, name after name. */
  method EmitParams(query: Query, keys: seq<string>) returns (params: seq<string>)
    requires AllIn(query, keys)
    ensures params == Params(query, keys)
  {
    params := [];
    var i := 0;
    while i < |keys|
      invariant 0 <= i <= |keys|
      invariant params == Params(query, keys[..i])
    {
      var name := keys[i];
      var values := query[name];
      var j := 0;
      while j < |values|
        invariant 0 <= j <= |values|
        invariant params == Params(query, keys[..i]) + Tokens(name, values[..j])
      {
        TokensSnoc(name, values, j);
        params := params + [Token(name, values[j])];
        j := j + 1;
      }
      assert values[..j] == values;
      assert keys[..i + 1][..i] == keys[..i];
      i := i + 1;
    }
    assert keys[..i] == keys;
  }

  /** `generateCacheKey`: whatever order the names were collected in, sorting
      makes the result the canonical string. */
  method GenerateCacheKey(path: string, query: Query) returns (key: string)
    ensures key == CanonicalKey(path, query)
  {
    var names := CollectNames(query);
    SortIsCanonical(names, query.Keys);
    var keys := SortStrings(names);
    var params := EmitParams(query, keys);
    key := path + "?" + Join(params, "&");
  }

  /** An empty query yields exactly `path?`. */
  lemma EmptyQuery(path: string)
    ensures CanonicalKey(path, map[]) == path + "?"
  {
    var empty: Query := map[];
    assert SortedElements(empty.Keys) == [];
  }

  /** The names are emitted in strictly increasing order, each exactly once. */
  lemma NamesInOrder(q: Query)
    ensures StrictlySorted(SortedElements(q.Keys))
    ensures forall n :: n in SortedElements(q.Keys) <==> n in q
    ensures |SortedElements(q.Keys)| == |q|
  {
  }

  /** There is exactly one token per value occurrence; a name with no values
      contributes none. */
  lemma {:induction false} ParamsLength(q: Query, names: seq<string>)
    requires AllIn(q, names)
    ensures |Params(q, names)| == ValueCount(q, names)
  {
    if names != [] {
      ParamsLength(q, names[..|names| - 1]);
    }
  }

  lemma EmptyValuesAddNothing(q: Query, names: seq<string>, n: string)
    requires AllIn(q, names) && n in q && q[n] == []
    ensures AllIn(q, names + [n])
    ensures Params(q, names + [n]) == Params(q, names)
  {
    assert (names + [n])[..|names|] == names;
  }

  /** Token `j` of the `i`-th name sits right after the tokens of the names
      before it, and renders that name with its `j`-th value: values keep
      their order and the names theirs. */
  lemma {:induction false} ParamAt(q: Query, names: seq<string>, i: nat, j: nat)
    requires AllIn(q, names)
    requires i < |names| && j < |q[names[i]]|
    ensures AllIn(q, names[..i])
    ensures ValueCount(q, names[..i]) + j < |Params(q, names)|
    ensures Params(q, names)[ValueCount(q, names[..i]) + j] == Token(names[i], q[names[i]][j])
  {
    var init := names[..|names| - 1];
    ParamsLength(q, init);
    if i == |names| - 1 {
      assert names[..i] == init;
    } else {
      assert init[..i] == names[..i];
      ParamAt(q, init, i, j);
    }
  }

  // ---------------------------------------------------------------- hashString

  predicate IsLowerHexDigit(c: char) {
    '0' <= c <= '9' || 'a' <= c <= 'f'
  }

  function HexDigit(v: int): (c: char)
    requires 0 <= v < 16
    ensures IsLowerHexDigit(c)
  {
    if v < 10 then ('0' as int + v) as char else ('a' as int + v - 10) as char
  }

  function HexValue(c: char): int
    requires IsLowerHexDigit(c)
  {
    if c <= '9' then c as int - '0' as int else c as int - 'a' as int + 10
  }

  /** `%x` of a byte sequence: two lower-case digits per byte, high nibble first. */
  function HexEncode(bs: seq<byte>): (r: string)
    ensures |r| == 2 * |bs|
    ensures forall i :: 0 <= i < |r| ==> IsLowerHexDigit(r[i])
  {
    if bs == [] then ""
    else [HexDigit(bs[0] as int / 16), HexDigit(bs[0] as int % 16)] + HexEncode(bs[1..])
  }

  /** Reads a lower-case hex rendering back into bytes. */
  function HexDecode(r: string): seq<byte>
    requires |r| % 2 == 0
    requires forall i :: 0 <= i < |r| ==> IsLowerHexDigit(r[i])
  {
    if r == [] then []
    else [(HexValue(r[0]) * 16 + HexValue(r[1])) as byte] + HexDecode(r[2..])
  }

  /** `hashString`: the hex rendering of the digest of `s`. */
  function HashString(md5: string -> Digest, s: string): (r: string)
    ensures |r| == 32
    ensures forall i :: 0 <= i < |r| ==> IsLowerHexDigit(r[i])
  {
    HexEncode(md5(s))
  }

  /** The rendering loses nothing: decoding it gives back the bytes. */
  lemma {:induction false} HexRoundTrip(bs: seq<byte>)
    ensures HexDecode(HexEncode(bs)) == bs
  {
    if bs != [] {
      var r := HexEncode(bs);
      assert r[2..] == HexEncode(bs[1..]);
      HexRoundTrip(bs[1..]);
      var b := bs[0] as int;
      assert HexValue(HexDigit(b / 16)) == b / 16;
      assert HexValue(HexDigit(b % 16)) == b % 16;
      assert bs == [bs[0]] + bs[1..];
    }
  }

  /** So the displayed key determines the digest, and equal digests give equal keys. */
  lemma HashStringInverts(md5: string -> Digest, s: string)
    ensures HexDecode(HashString(md5, s)) == md5(s)
  {
    HexRoundTrip(md5(s));
  }
}
