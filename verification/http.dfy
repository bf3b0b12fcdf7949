/** The abstract request the users client hands to its connection. The
    connection itself (transport, authentication, URL and query encoding,
    JSON serialisation) is outside the model: it receives a `Request` value. */
module Http {
  import opened Wrappers

  datatype Verb = Get | Post | Put | Patch | Delete

  /** A query dictionary in insertion order: key/value pairs. */
  type Query = seq<(string, string)>

  /** Exceptions raised while shaping a request, before anything is sent:
      `Ensure.ArgumentNotNull` on a null argument, and `Dictionary.Add` on a
      key already present. */
  datatype ArgError = ArgumentNull(paramName: string) | DuplicateKey(key: string)

  /** Verb, path, query dictionary and optional body, as passed to the
      connection's Get/Post/Put/Patch/Delete calls. */
  datatype Request<B> = Request(verb: Verb, path: string, query: Query, body: Option<B>)

  /** The value a dictionary holds for `k`. */
  function Lookup(q: Query, k: string): Option<string>
    decreases |q|
  {
    if |q| == 0 then None
    else if q[0].0 == k then Some(q[0].1)
    else Lookup(q[1..], k)
  }

  function KeySet(q: Query): set<string>
  {
    set p | p in q :: p.0
  }

  /** No key occurs twice: the shape a .NET dictionary always has. */
  predicate DistinctKeys(q: Query)
  {
    forall i, j :: 0 <= i < j < |q| ==> q[i].0 != q[j].0
  }

  lemma {:induction false} LookupFindsKeys(q: Query, k: string)
    ensures Lookup(q, k).Some? <==> k in KeySet(q)
    decreases |q|
  {
    if |q| > 0 {
      LookupFindsKeys(q[1..], k);
      assert q == [q[0]] + q[1..];
      assert KeySet(q) == {q[0].0} + KeySet(q[1..]);
    }
  }

  lemma {:induction false} LookupAfterAppend(q: Query, k: string, v: string, k': string)
    ensures Lookup(q + [(k, v)], k') ==
      if Lookup(q, k').Some? then Lookup(q, k') else if k' == k then Some(v) else None
    decreases |q|
  {
    if |q| > 0 {
      assert (q + [(k, v)])[1..] == q[1..] + [(k, v)];
      LookupAfterAppend(q[1..], k, v, k');
    }
  }

  lemma LookupAfterAppendAll(q: Query, k: string, v: string)
    ensures forall k' :: Lookup(q + [(k, v)], k') == (if Lookup(q, k').Some? then Lookup(q, k') else if k' == k then Some(v) else None)
  {
    forall k' {
      LookupAfterAppend(q, k, v, k');
    }
  }

  lemma KeySetHoldsEveryKey(q: Query)
    ensures forall i :: 0 <= i < |q| ==> q[i].0 in KeySet(q)
  {
  }

  /** `Dictionary.Add`: fails on a key already present, otherwise binds `k`
      to `v` and leaves every other key's binding as it was. */
  function Add(q: Query, k: string, v: string): (r: Result<Query, ArgError>)
    ensures r.Failure? <==> Lookup(q, k).Some?
    ensures r.Failure? ==> r.error == DuplicateKey(k)
    ensures r.Success? ==> Lookup(r.value, k) == Some(v)
    ensures r.Success? ==> forall k' :: k' != k ==> Lookup(r.value, k') == Lookup(q, k')
    ensures r.Success? ==> KeySet(r.value) == KeySet(q) + {k}
    ensures r.Success? && DistinctKeys(q) ==> DistinctKeys(r.value)
  {
    LookupFindsKeys(q, k);
    if k in KeySet(q) then Failure(DuplicateKey(k))
    else
      var q' := q + [(k, v)];
      LookupAfterAppendAll(q, k, v);
      KeySetHoldsEveryKey(q);
      Success(q')
  }
}
