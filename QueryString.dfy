/** `Repository._get`: the optional rename of the `cmisselector` parameter to
    `selector` (the server-compatibility switch SELECTOR_HACK) and the request
    URL `url + "?" + "&".join("k=v" ...)`. Keys and values are not escaped. */
module QueryString {
  import opened Values

  const SELECTOR_PARAM := "cmisselector"
  const SELECTOR_ALIAS := "selector"

  /** Python's `sep.join(parts)`. */
  function Join(parts: seq<string>, sep: string): (s: string)
    ensures parts == [] ==> s == ""
    ensures |parts| == 1 ==> s == parts[0]
  {
    if |parts| == 0 then ""
    else if |parts| == 1 then parts[0]
    else parts[0] + sep + Join(parts[1..], sep)
  }

  /** Python's `s.split(c)`: the pieces between occurrences of `c`. */
  function Split(s: string, c: char): (r: seq<string>)
    ensures |r| > 0
    decreases |s|
  {
    if |s| == 0 then [""]
    else
      var rest := Split(s[1..], c);
      if s[0] == c then [""] + rest
      else [[s[0]] + rest[0]] + rest[1..]
  }

  lemma {:induction false} SplitWithoutSeparator(p: string, c: char)
    requires c !in p
    ensures Split(p, c) == [p]
    decreases |p|
  {
    if |p| > 0 {
      SplitWithoutSeparator(p[1..], c);
      assert [p[0]] + p[1..] == p;
    }
  }

  lemma {:induction false} SplitAfterPiece(p: string, c: char, t: string)
    requires c !in p
    ensures Split(p + [c] + t, c) == [p] + Split(t, c)
    decreases |p|
  {
    var s := p + [c] + t;
    if |p| == 0 {
      assert s[1..] == t;
    } else {
      assert s[1..] == p[1..] + [c] + t;
      SplitAfterPiece(p[1..], c, t);
      assert [p[0]] + p[1..] == p;
    }
  }

  /** Joining pieces that do not contain the separator can be undone: the `&`
      in a query string separates exactly the pieces that were joined. */
  lemma {:induction false} SplitJoin(parts: seq<string>, c: char)
    requires |parts| > 0
    requires forall i :: 0 <= i < |parts| ==> c !in parts[i]
    ensures Split(Join(parts, [c]), c) == parts
    decreases |parts|
  {
    if |parts| == 1 {
      SplitWithoutSeparator(parts[0], c);
    } else {
      SplitJoin(parts[1..], c);
      SplitAfterPiece(parts[0], c, Join(parts[1..], [c]));
      assert [parts[0]] + parts[1..] == parts;
    }
  }

  /** The `"%s=%s" % (k, v)` strings, in the iteration order `order`. */
  function Pairs(order: seq<string>, args: map<string, string>): (r: seq<string>)
    requires forall i :: 0 <= i < |order| ==> order[i] in args
    ensures |r| == |order|
    ensures forall i :: 0 <= i < |order| ==> r[i] == order[i] + "=" + args[order[i]]
  {
    if |order| == 0 then []
    else Pairs(order[..|order| - 1], args) + [order[|order| - 1] + "=" + args[order[|order| - 1]]]
  }

  /** The parameters actually sent: with `hack` on, the value of `cmisselector` is
      moved to `selector` (overwriting any `selector` already given), and a
      missing `cmisselector` is a KeyError. */
  function RewriteSelector(args: map<string, string>, hack: bool): (r: Result<map<string, string>>)
    ensures !hack ==> r == Ok(args)
    ensures hack ==> (r.Ok? <==> SELECTOR_PARAM in args)
    ensures r.Err? ==> r.error == KeyError(SELECTOR_PARAM)
    ensures hack && r.Ok? ==>
      && r.value.Keys == args.Keys - {SELECTOR_PARAM} + {SELECTOR_ALIAS}
      && r.value[SELECTOR_ALIAS] == args[SELECTOR_PARAM]
      && forall k :: k in args && k != SELECTOR_PARAM && k != SELECTOR_ALIAS ==> r.value[k] == args[k]
  {
    if !hack then Ok(args)
    else if SELECTOR_PARAM !in args then Err(KeyError(SELECTOR_PARAM))
    else Ok(args[SELECTOR_ALIAS := args[SELECTOR_PARAM]] - {SELECTOR_PARAM})
  }

  /** The URL `Repository._get` requests: it renames the selector in its own
      copy of the keyword arguments, then formats one `k=v` per parameter in the
      dictionary's iteration order (`order`, left unspecified) and joins them. */
  method RequestUrl(url: string, args: map<string, string>, hack: bool)
    returns (r: Result<string>, ghost order: seq<string>)
    ensures r.Ok? <==> RewriteSelector(args, hack).Ok?
    ensures r.Err? ==> r.error == KeyError(SELECTOR_PARAM)
    ensures r.Ok? ==>
      var sent := RewriteSelector(args, hack).value;
      && Enumerates(order, sent.Keys)
      && r.value == url + "?" + Join(Pairs(order, sent), "&")
  {
    order := [];
    var params := args;
    if hack {
      if SELECTOR_PARAM !in params {
        return Err(KeyError(SELECTOR_PARAM)), order;
      }
      params := params[SELECTOR_ALIAS := params[SELECTOR_PARAM]];
      params := params - {SELECTOR_PARAM};
    }
    assert RewriteSelector(args, hack) == Ok(params);
    var pairs: seq<string> := [];
    var rest := params.Keys;
    while rest != {}
      invariant rest <= params.Keys
      invariant forall i, j :: 0 <= i < j < |order| ==> order[i] != order[j]
      invariant forall k :: k in order <==> k in params.Keys - rest
      invariant forall i :: 0 <= i < |order| ==> order[i] in params
      invariant pairs == Pairs(order, params)
      decreases rest
    {
      var k :| k in rest;
      ghost var before := order;
      assert k !in before;
      pairs := pairs + [k + "=" + params[k]];
      order := order + [k];
      assert order[..|order| - 1] == before;
      rest := rest - {k};
    }
    r := Ok(url + "?" + Join(pairs, "&"));
  }

  /** When no key or value contains `&`, the part after the `?` splits back into
      exactly one `k=v` string per parameter sent. */
  lemma QueryRecoversPairs(order: seq<string>, sent: map<string, string>)
    requires Enumerates(order, sent.Keys)
    requires sent != map[]
    requires forall k :: k in sent ==> '&' !in k && '&' !in sent[k]
    ensures |order| == |sent|
    ensures Split(Join(Pairs(order, sent), "&"), '&') == Pairs(order, sent)
  {
    EnumerationSize(order, sent.Keys);
    var ps := Pairs(order, sent);
    forall i | 0 <= i < |ps|
      ensures '&' !in ps[i]
    {
      assert order[i] in sent;
      assert ps[i] == order[i] + "=" + sent[order[i]];
    }
    assert "&" == ['&'];
    SplitJoin(ps, '&');
  }

  /** The arguments `Repository.getObject` passes for one object. */
  function ObjectArgs(objectId: string): (args: map<string, string>)
    ensures RewriteSelector(args, true) == Ok(map["objectId" := objectId, SELECTOR_ALIAS := "object"])
    ensures RewriteSelector(args, false) == Ok(map["objectId" := objectId, SELECTOR_PARAM := "object"])
  {
    var args := map["objectId" := objectId, SELECTOR_PARAM := "object"];
    assert args[SELECTOR_ALIAS := "object"] - {SELECTOR_PARAM} == map["objectId" := objectId, SELECTOR_ALIAS := "object"];
    args
  }
}
