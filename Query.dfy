/**
 * Query strings as `url.Values.Encode` writes them (`k=v` pairs joined with
 * `&`, keys in sorted order) and as a query parser reads them back.  The
 * percent-escaping itself (`url.QueryEscape` / `url.QueryUnescape`) is an
 * opaque codec.
 */
module Query {
  import opened Wrappers
  import opened Text

  /** Parameters in the order the encoder emits them (sorted by key). */
  type Params = seq<(string, string)>

  datatype UrlCodec = UrlCodec(escape: string -> string, unescape: string -> Option<string>)

  /** Unescaping undoes escaping, and an escaped string holds neither `&` nor `=`. */
  ghost predicate Coherent(c: UrlCodec)
  {
    forall s :: c.unescape(c.escape(s)) == Some(s) && '&' !in c.escape(s) && '=' !in c.escape(s)
  }

  /** Keys strictly increasing, as `Encode` orders them. */
  predicate SortedKeys(q: Params)
  {
    forall i :: 0 < i < |q| ==> StringLess(q[i - 1].0, q[i].0)
  }

  /** Go's byte-wise string order, on code points. */
  predicate StringLess(a: string, b: string)
  {
    if |a| == 0 then |b| > 0
    else if |b| == 0 then false
    else a[0] < b[0] || (a[0] == b[0] && StringLess(a[1..], b[1..]))
  }

  function EncodedPairs(c: UrlCodec, q: Params): (parts: seq<string>)
    ensures |parts| == |q|
  {
    if |q| == 0 then [] else [c.escape(q[0].0) + "=" + c.escape(q[0].1)] + EncodedPairs(c, q[1..])
  }

  /** `url.Values.Encode`: the pairs joined with `&`; no pairs encode as the empty string. */
  function Encode(c: UrlCodec, q: Params): string
  {
    if |q| == 0 then "" else Join(EncodedPairs(c, q), '&')
  }

  /** One `key=value` piece, cut at its first `=`. */
  function ParsePair(c: UrlCodec, piece: string): Option<(string, string)>
  {
    var kv := Split(piece, '=');
    if |kv| < 2 then None
    else
      var v := Join(kv[1..], '=');
      match (c.unescape(kv[0]), c.unescape(v))
      case (Some(k), Some(w)) => Some((k, w))
      case _ => None
  }

  function ParsePieces(c: UrlCodec, pieces: seq<string>): Option<Params>
  {
    if |pieces| == 0 then Some([])
    else
      match (ParsePair(c, pieces[0]), ParsePieces(c, pieces[1..]))
      case (Some(p), Some(rest)) => Some([p] + rest)
      case _ => None
  }

  /** Reading a non-empty query string back into its pairs. */
  function Parse(c: UrlCodec, s: string): Option<Params>
  {
    ParsePieces(c, Split(s, '&'))
  }

  lemma EncodedPairsFree(c: UrlCodec, q: Params)
    requires Coherent(c)
    ensures forall p :: p in EncodedPairs(c, q) ==> '&' !in p
  {
    forall p | p in EncodedPairs(c, q) ensures '&' !in p {
      var i :| 0 <= i < |q| && p == EncodedPairs(c, q)[i];
      EncodedPairAt(c, q, i);
      assert '&' !in c.escape(q[i].0) && '&' !in c.escape(q[i].1);
    }
  }

  lemma {:induction false} EncodedPairAt(c: UrlCodec, q: Params, i: nat)
    requires i < |q|
    ensures EncodedPairs(c, q)[i] == c.escape(q[i].0) + "=" + c.escape(q[i].1)
    decreases i
  {
    if i > 0 {
      EncodedPairAt(c, q[1..], i - 1);
    }
  }

  lemma ParseEncodedPair(c: UrlCodec, k: string, v: string)
    requires Coherent(c)
    ensures ParsePair(c, c.escape(k) + "=" + c.escape(v)) == Some((k, v))
  {
    var ek, ev := c.escape(k), c.escape(v);
    assert c.unescape(ek) == Some(k) && '=' !in ek;
    assert c.unescape(ev) == Some(v) && '=' !in ev;
    SplitAtSeparator(ek, ev, '=');
    SplitFree(ev, '=');
    assert Split(ek + "=" + ev, '=') == [ek, ev];
  }

  lemma {:induction false} ParseEncodedPieces(c: UrlCodec, q: Params)
    requires Coherent(c)
    ensures ParsePieces(c, EncodedPairs(c, q)) == Some(q)
    decreases |q|
  {
    if |q| > 0 {
      ParseEncodedPair(c, q[0].0, q[0].1);
      ParseEncodedPieces(c, q[1..]);
      assert EncodedPairs(c, q)[1..] == EncodedPairs(c, q[1..]);
      assert [q[0]] + q[1..] == q;
    }
  }

  /** A non-empty encoded query is read back as exactly its pairs, in order. */
  lemma QueryRoundTrip(c: UrlCodec, q: Params)
    requires Coherent(c) && |q| >= 1
    ensures Parse(c, Encode(c, q)) == Some(q)
  {
    EncodedPairsFree(c, q);
    JoinSplit(EncodedPairs(c, q), '&');
    ParseEncodedPieces(c, q);
  }
}
