// The signing-key cache of JwtTokenService: it always holds the latest key set that
// was fetched successfully, whatever fetches fail and whoever else is fetching.

module JwksCache {
  import opened Messaging

  datatype Jwk = Jwk(kid: Option<string>, x5c: seq<string>)

  // How one fetch of the JWKS document ended: the keys and the time they were stored,
  // or a failure (no answer, an HTTP error, a body without a key array).
  datatype Fetch = Fetched(keys: seq<Jwk>, at: int) | Failed

  // jwksKeys.find((k) => k.kid === kid)
  function Find(keys: seq<Jwk>, kid: Option<string>): Option<Jwk> {
    if keys == [] then None else if keys[0].kid == kid then Some(keys[0]) else Find(keys[1..], kid)
  }

  // formatPublicKey, without the line wrapping of the certificate.
  function FormatPublicKey(key: Jwk): Result<string> {
    if key.x5c != [] && key.x5c[0] != "" then Ok(key.x5c[0]) else Err("JWKS key has no x5c certificate chain")
  }

  // The answer for a key: the first certificate of its chain, and an error if it has none.
  predicate IsCertificateOf(r: Result<string>, key: Jwk) {
    && (r.Ok? <==> |key.x5c| > 0 && key.x5c[0] != "")
    && (r.Ok? ==> r.value == key.x5c[0])
  }

  // The last successful fetch.
  function LatestGood(history: seq<Fetch>): Option<Fetch> {
    if history == [] then None
    else if history[|history| - 1].Fetched? then Some(history[|history| - 1])
    else LatestGood(history[..|history| - 1])
  }

  // ---------------------------------------------------------------- what these mean

  // keys[i] is the first key with this kid.
  ghost predicate FirstAt(keys: seq<Jwk>, kid: Option<string>, i: int) {
    0 <= i < |keys| && keys[i].kid == kid && forall j :: 0 <= j < i ==> keys[j].kid != kid
  }

  lemma {:induction false} FindIsFirst(keys: seq<Jwk>, kid: Option<string>)
    ensures Find(keys, kid).None? <==> forall i :: 0 <= i < |keys| ==> keys[i].kid != kid
    ensures forall i :: FirstAt(keys, kid, i) ==> Find(keys, kid) == Some(keys[i])
    ensures Find(keys, kid).Some? ==> exists i :: FirstAt(keys, kid, i)
  {
    if keys == [] {
    } else if keys[0].kid == kid {
      assert FirstAt(keys, kid, 0);
    } else {
      var rest := keys[1..];
      FindIsFirst(rest, kid);
      assert forall j :: 1 <= j < |keys| ==> keys[j] == rest[j - 1];
      forall i | FirstAt(keys, kid, i) ensures FirstAt(rest, kid, i - 1) { }
      if Find(rest, kid).Some? {
        var i :| FirstAt(rest, kid, i);
        assert FirstAt(keys, kid, i + 1);
      }
    }
  }

  // history[i] is the last successful fetch.
  ghost predicate LatestAt(history: seq<Fetch>, i: int) {
    0 <= i < |history| && history[i].Fetched? && forall j :: i < j < |history| ==> history[j].Failed?
  }

  lemma {:induction false} LatestGoodIsLatest(history: seq<Fetch>)
    ensures LatestGood(history).None? <==> forall i :: 0 <= i < |history| ==> history[i].Failed?
    ensures forall i :: LatestAt(history, i) ==> LatestGood(history) == Some(history[i])
    ensures LatestGood(history).Some? ==> exists i :: LatestAt(history, i)
  {
    if history == [] {
    } else if history[|history| - 1].Fetched? {
      assert LatestAt(history, |history| - 1);
    } else {
      var init := history[..|history| - 1];
      LatestGoodIsLatest(init);
      forall i | LatestAt(history, i) ensures LatestAt(init, i) { }
      if LatestGood(init).Some? {
        var i :| LatestAt(init, i);
        assert LatestAt(history, i);
      }
    }
  }

  lemma {:induction false} LatestGoodAppend(a: seq<Fetch>, b: seq<Fetch>)
    ensures LatestGood(a + b) == if LatestGood(b).Some? then LatestGood(b) else LatestGood(a)
    decreases |b|
  {
    if b == [] {
      assert a + b == a;
    } else {
      assert (a + b)[..|a + b| - 1] == a + b[..|b| - 1];
      LatestGoodAppend(a, b[..|b| - 1]);
    }
  }

  // ---------------------------------------------------------------- the cache

  // The answers to one lookup, and the fetches of other lookups that end meanwhile:
  // before each answer is stored, and between that and the lookup's resumption.
  datatype LookupIo = LookupIo(
    first: Fetch,
    second: Fetch,
    beforeFirst: seq<Fetch>,
    afterFirst: seq<Fetch>,
    beforeSecond: seq<Fetch>,
    afterSecond: seq<Fetch>)

  class JwtTokenService {
    var jwksKeys: seq<Jwk>
    var lastFetchTime: int
    const cacheDuration: int
    ghost var history: seq<Fetch>

    // Keys and timestamp are those of the latest successful fetch.
    ghost predicate Valid()
      reads this
    {
      match LatestGood(history)
      case None => jwksKeys == [] && lastFetchTime == 0
      case Some(fetch) => fetch.Fetched? && jwksKeys == fetch.keys && lastFetchTime == fetch.at
    }

    constructor (cacheDuration: int)
      ensures Valid() && history == [] && this.cacheDuration == cacheDuration
    {
      this.cacheDuration := cacheDuration;
      jwksKeys, lastFetchTime, history := [], 0, [];
    }

    // A failed fetch leaves keys and timestamp as they are.
    method FetchJwks(response: Fetch) returns (ok: bool)
      requires Valid()
      modifies this
      ensures Valid() && ok == response.Fetched? && history == old(history) + [response]
      ensures !ok ==> jwksKeys == old(jwksKeys) && lastFetchTime == old(lastFetchTime)
      ensures ok ==> jwksKeys == response.keys && lastFetchTime == response.at
    {
      LatestGoodAppend(history, [response]);
      assert LatestGood([response]) == (if response.Fetched? then Some(response) else None);
      history := history + [response];
      ok := response.Fetched?;
      if ok {
        jwksKeys := response.keys;
        lastFetchTime := response.at;
      }
    }

    // Fetches of concurrent lookups that end while this one waits.
    method Yield(others: seq<Fetch>)
      requires Valid()
      modifies this
      ensures Valid() && history == old(history) + others
    {
      for i := 0 to |others|
        invariant Valid() && history == old(history) + others[..i]
      {
        assert others[..i + 1] == others[..i] + [others[i]];
        var _ := FetchJwks(others[i]);
      }
      assert others[..|others|] == others;
    }

    // await this.fetchJwks(): others may store their answers before and after.
    method AwaitFetch(before: seq<Fetch>, response: Fetch, after: seq<Fetch>)
      returns (ok: bool, ghost during: seq<Fetch>)
      requires Valid()
      modifies this
      ensures Valid() && ok == response.Fetched? && during == before + [response] + after
      ensures history == old(history) + during
      ensures ok ==> LatestGood(during).Some?
    {
      Yield(before);
      ok := FetchJwks(response);
      Yield(after);
      during := before + [response] + after;
      assert history == old(history) + during;
      if ok {
        LatestGoodAppend(before, [response]);
        LatestGoodAppend(before + [response], after);
      }
    }

    // `own` are the fetches this lookup made.  A key that is returned is the first with
    // its kid in the latest set fetched; that set was fetched during the lookup or was
    // fresh when it began.  A lookup fails only for a reason one can name.
    method GetSigningKey(kid: Option<string>, now: int, io: LookupIo)
      returns (r: Result<string>, ghost own: seq<Fetch>, ghost during: seq<Fetch>)
      requires Valid()
      modifies this
      ensures Valid() && history == old(history) + during
      ensures
        var f := io.beforeFirst + [io.first] + io.afterFirst;
        var g := io.beforeSecond + [io.second] + io.afterSecond;
        if old(jwksKeys) != [] && now - old(lastFetchTime) <= cacheDuration
        then (own == [] && during == []) || (own == [io.second] && during == g)
        else (own == [io.first] && during == f) || (own == [io.first, io.second] && during == f + g)
      ensures (old(jwksKeys) != [] && now - old(lastFetchTime) <= cacheDuration && Find(old(jwksKeys), kid).Some?) ==>
        own == [] && IsCertificateOf(r, Find(old(jwksKeys), kid).value)
      ensures r.Ok? ==>
        && LatestGood(history).Some?
        && Find(LatestGood(history).value.keys, kid).Some?
        && IsCertificateOf(r, Find(LatestGood(history).value.keys, kid).value)
        && (LatestGood(during).Some?
            || (during == [] && old(LatestGood(history)).Some?
                && now - old(LatestGood(history)).value.at <= cacheDuration))
      ensures r.Err? ==>
        || (own != [] && own[|own| - 1].Failed?)
        || (own != [] && own[|own| - 1] == io.second && io.second.Fetched? && Find(jwksKeys, kid).None?)
        || (Find(jwksKeys, kid).Some? && IsCertificateOf(r, Find(jwksKeys, kid).value))
    {
      own, during := [], [];
      var ok;
      assert history == old(history) + during;
      if |jwksKeys| == 0 || now - lastFetchTime > cacheDuration {
        ok, during := AwaitFetch(io.beforeFirst, io.first, io.afterFirst);
        own := [io.first];
        if !ok {
          return Err("Failed to fetch OIDC JWKS keys"), own, during;
        }
        LatestGoodAppend(old(history), during);
      }
      var foundKey := Find(jwksKeys, kid);
      if foundKey.None? {
        ghost var more;
        ok, more := AwaitFetch(io.beforeSecond, io.second, io.afterSecond);
        assert history == old(history) + (during + more);
        LatestGoodAppend(during, more);
        own, during := (if own == [] then [io.second] else [io.first, io.second]), during + more;
        if !ok {
          return Err("Failed to fetch OIDC JWKS keys"), own, during;
        }
        LatestGoodAppend(old(history), during);
        var retryKey := Find(jwksKeys, kid);
        if retryKey.None? {
          return Err("Signing key not found in JWKS"), own, during;
        }
        r := FormatPublicKey(retryKey.value);
        return;
      }
      r := FormatPublicKey(foundKey.value);
    }
  }
}
