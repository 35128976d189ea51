/** src/services/utmService.ts: the UTM attribution bundle. The five `utm_*`
    query parameters are extracted from the page address, merged into the
    bundle kept in session storage (stamping `first_visit` and `referrer`
    once), and appended to outgoing links. */
module UtmService {
  import opened Wrappers
  import opened Text
  import opened Query

  const UTM_SOURCE := "utm_source"
  const UTM_MEDIUM := "utm_medium"
  const UTM_CAMPAIGN := "utm_campaign"
  const UTM_CONTENT := "utm_content"
  const UTM_TERM := "utm_term"
  const FIRST_VISIT := "first_visit"
  const REFERRER := "referrer"

  /** The five keys, in the order the service reads them. */
  const UTM_KEYS: seq<string> := [UTM_SOURCE, UTM_MEDIUM, UTM_CAMPAIGN, UTM_CONTENT, UTM_TERM]
  const UTM_KEY_SET: set<string> := {UTM_SOURCE, UTM_MEDIUM, UTM_CAMPAIGN, UTM_CONTENT, UTM_TERM}

  /** A bundle of fresh parameters (`UTMParams` as built by the extractor): a
      key may be present with the value `undefined`, written `None`. */
  type Params = map<string, Option<string>>

  /** A bundle as it comes back from session storage: JSON serialisation has
      dropped every `undefined` value. */
  type Bundle = map<string, string>

  /** The session-storage item `lysticle_utm_data`: a JSON object of strings,
      or text that `JSON.parse` rejects. */
  datatype StoredItem = Stored(bundle: Bundle) | Malformed

  /** An address as `new URL` splits it: everything before the query, the
      decoded query, and the fragment. */
  datatype Url = Url(base: string, search: Query, hash: string)

  /** What `appendUTMToURL` returns: the argument text itself, or the parsed
      address with a new query, serialised by the browser. */
  datatype Link = Original(text: string) | Rebuilt(url: Url)

  /** `params.get(k) || undefined`. */
  function OrUndefined(v: Option<string>): Option<string>
  {
    if v.Some? && v.value != "" then v else None
  }

  /** The keys of `ks` that `q` has, with their first value, or `undefined`
      for an empty one. */
  function ExtractedOver(q: Query, ks: set<string>): Params
  {
    map k | k in ks && Has(q, k) :: OrUndefined(Get(q, k))
  }

  /** Reference definition of the extraction: the five keys, looked up in the
      parsed query; a URL that fails to parse gives the empty bundle. */
  function Extracted(parsed: Option<Query>): Params
  {
    if parsed.None? then map[] else ExtractedOver(parsed.value, UTM_KEY_SET)
  }

  /** Looking at one more key. */
  lemma ExtractedStep(q: Query, ks: set<string>, k: string)
    ensures ExtractedOver(q, ks + {k})
         == if Has(q, k) then ExtractedOver(q, ks)[k := OrUndefined(Get(q, k))] else ExtractedOver(q, ks)
  {
  }

  /** What the extraction yields: exactly the five keys the query has, each
      with its first value, or `undefined` when that value is empty; nothing
      when the address does not parse. */
  lemma ExtractedFacts(parsed: Option<Query>)
    ensures parsed.None? ==> Extracted(parsed) == map[]
    ensures parsed.Some? ==> forall k :: k in Extracted(parsed) <==> k in UTM_KEY_SET && Has(parsed.value, k)
    ensures parsed.Some? ==> forall k :: k in Extracted(parsed) ==>
      (Extracted(parsed)[k].None? <==> Get(parsed.value, k) == Some(""))
    ensures parsed.Some? ==> forall k :: k in Extracted(parsed) && Extracted(parsed)[k].Some? ==>
      Get(parsed.value, k) == Extracted(parsed)[k]
  {
  }

  /** `if (params.has(k)) utmData[k] = params.get(k) || undefined`: extends
      `done` by `k`. */
  method CopyParam(params: Query, utmData: Params, ghost done: set<string>, k: string)
    returns (r: Params)
    requires utmData == ExtractedOver(params, done)
    ensures r == ExtractedOver(params, done + {k})
  {
    ExtractedStep(params, done, k);
    r := utmData;
    if Has(params, k) {
      r := r[k := OrUndefined(Get(params, k))];
    }
  }

  /** `extractUTMFromURL`, on the outcome of `new URL(url)`. */
  method ExtractUTMFromURL(parsed: Option<Query>) returns (utm: Params)
    ensures utm == Extracted(parsed)
  {
    utm := map[];
    if parsed.Some? {
      var params := parsed.value;
      assert utm == ExtractedOver(params, {});
      utm := CopyParam(params, utm, {}, UTM_SOURCE);
      utm := CopyParam(params, utm, {UTM_SOURCE}, UTM_MEDIUM);
      utm := CopyParam(params, utm, {UTM_SOURCE, UTM_MEDIUM}, UTM_CAMPAIGN);
      utm := CopyParam(params, utm, {UTM_SOURCE, UTM_MEDIUM, UTM_CAMPAIGN}, UTM_CONTENT);
      utm := CopyParam(params, utm, {UTM_SOURCE, UTM_MEDIUM, UTM_CAMPAIGN, UTM_CONTENT}, UTM_TERM);
      assert {UTM_SOURCE, UTM_MEDIUM, UTM_CAMPAIGN, UTM_CONTENT} + {UTM_TERM} == UTM_KEY_SET;
    }
  }

  /** `{ ...existing, ...params }`: later keys win, `undefined` included. */
  function Spread(existing: Bundle, params: Params): Params
  {
    map k | k in existing.Keys + params.Keys :: if k in params then params[k] else Some(existing[k])
  }

  /** The field `k` of a merged object is truthy. */
  predicate Present(m: Params, k: string)
  {
    k in m && m[k].Some? && m[k].value != ""
  }

  /** Stamp `first_visit` with `now` unless present, then `referrer` with the
      document's referrer unless present or the referrer is empty. */
  function Stamp(m: Params, now: string, referrer: string): Params
  {
    var m1 := if Present(m, FIRST_VISIT) then m else m[FIRST_VISIT := Some(now)];
    if !Present(m1, REFERRER) && referrer != "" then m1[REFERRER := Some(referrer)] else m1
  }

  /** `JSON.stringify` followed by `JSON.parse`: fields whose value is
      `undefined` disappear. */
  function Serialized(m: Params): Bundle
  {
    map k | k in m && m[k].Some? :: m[k].value
  }

  /** The bundle `storeUTMParams` writes, given the bundle already stored. */
  function Merge(existing: Bundle, params: Params, now: string, referrer: string): Bundle
  {
    Serialized(Stamp(Spread(existing, params), now, referrer))
  }

  /** A stored field is truthy. */
  predicate Has1(b: Bundle, k: string)
  {
    k in b && b[k] != ""
  }

  /** The merge keeps new defined values, lets an `undefined` new value erase
      the stored one, keeps stored keys the new bundle does not mention, stamps
      `first_visit` only when it is missing and `referrer` only when it is
      missing and the document has one, and adds nothing else. */
  lemma MergeFacts(existing: Bundle, params: Params, now: string, referrer: string)
    requires FIRST_VISIT !in params && REFERRER !in params
    ensures var r := Merge(existing, params, now, referrer);
      && (forall k :: k in params && params[k].Some? ==> k in r && r[k] == params[k].value)
      && (forall k :: k in params && params[k].None? ==> k !in r)
      && (forall k :: k in existing && k !in params && k != FIRST_VISIT && k != REFERRER ==>
            k in r && r[k] == existing[k])
      && FIRST_VISIT in r
      && r[FIRST_VISIT] == (if Has1(existing, FIRST_VISIT) then existing[FIRST_VISIT] else now)
      && (REFERRER in r <==> REFERRER in existing || referrer != "")
      && (REFERRER in r ==>
            r[REFERRER] == if Has1(existing, REFERRER) || referrer == "" then existing[REFERRER] else referrer)
      && (forall k :: k in r ==> k in existing || k in params || k == FIRST_VISIT || k == REFERRER)
  {
    var s := Spread(existing, params);
    assert Present(s, FIRST_VISIT) <==> Has1(existing, FIRST_VISIT);
    assert Present(s, REFERRER) <==> Has1(existing, REFERRER);
  }

  /** Storing the same extracted bundle twice leaves what the first store
      wrote, `first_visit` included, provided the first timestamp is not empty
      (an ISO date never is). */
  lemma MergeIdempotent(existing: Bundle, params: Params, now: string, later: string, referrer: string)
    requires params.Keys <= UTM_KEY_SET
    requires now != ""
    ensures Merge(Merge(existing, params, now, referrer), params, later, referrer)
         == Merge(existing, params, now, referrer)
  {
    var r1 := Merge(existing, params, now, referrer);
    var r2 := Merge(r1, params, later, referrer);
    MergeFacts(existing, params, now, referrer);
    MergeFacts(r1, params, later, referrer);
    assert Has1(r1, FIRST_VISIT);
    assert r2.Keys == r1.Keys;
  }

  /** The session's attribution state: the one storage slot the service uses. */
  class UtmTracker {
    var storage: Option<StoredItem>

    /** A fresh session stores nothing. */
    constructor()
      ensures storage == None
    {
      storage := None;
    }

    /** `getUTMParams`: the stored bundle, or `{}` when nothing is stored or
        the stored text does not parse. */
    function GetUTMParams(): (r: Bundle)
      reads this
      ensures storage.Some? && storage.value.Stored? ==> r == storage.value.bundle
      ensures storage.None? || storage.value.Malformed? ==> r == map[]
    {
      if storage.Some? && storage.value.Stored? then storage.value.bundle else map[]
    }

    /** `storeUTMParams` at time `now` on a document whose referrer is
        `referrer`: the merged bundle replaces the stored one. */
    method StoreUTMParams(params: Params, now: string, referrer: string)
      modifies this
      ensures storage == Some(Stored(Merge(old(GetUTMParams()), params, now, referrer)))
    {
      var existingData := GetUTMParams();
      var mergedData := Spread(existingData, params);
      if !Present(mergedData, FIRST_VISIT) {
        mergedData := mergedData[FIRST_VISIT := Some(now)];
      }
      if !Present(mergedData, REFERRER) && referrer != "" {
        mergedData := mergedData[REFERRER := Some(referrer)];
      }
      storage := Some(Stored(Serialized(mergedData)));
    }

    /** `initUTMTracking` on the page whose address parses to `location`:
        stores only when the extraction found at least one key. */
    method InitUTMTracking(location: Option<Query>, now: string, referrer: string)
      modifies this
      ensures |Extracted(location)| == 0 ==> storage == old(storage)
      ensures |Extracted(location)| > 0 ==>
        storage == Some(Stored(Merge(old(GetUTMParams()), Extracted(location), now, referrer)))
    {
      var utmParams := ExtractUTMFromURL(location);
      if |utmParams| > 0 {
        StoreUTMParams(utmParams, now, referrer);
      }
    }

    /** `appendUTMToURL(url)`, where `parsed` is the outcome of `new URL(url)`. */
    method AppendUTMToURL(url: string, parsed: Option<Url>) returns (r: Link)
      ensures !HasUtmKey(GetUTMParams()) || parsed.None? ==> r == Original(url)
      ensures HasUtmKey(GetUTMParams()) && parsed.Some? ==>
        && r.Rebuilt?
        && r.url.base == parsed.value.base && r.url.hash == parsed.value.hash
        && Drop(r.url.search, UTM_KEY_SET) == Drop(parsed.value.search, UTM_KEY_SET)
        && (forall k :: k in UTM_KEY_SET && Has1(GetUTMParams(), k) ==>
              Get(r.url.search, k) == Some(GetUTMParams()[k]) && Count(r.url.search, k) == 1)
        && (forall k :: k in UTM_KEY_SET && !Has1(GetUTMParams(), k) ==>
              Get(r.url.search, k) == Get(parsed.value.search, k)
              && Count(r.url.search, k) == Count(parsed.value.search, k))
    {
      var utmParams := GetUTMParams();
      if !HasUtmKey(utmParams) {
        return Original(url);
      }
      if parsed.None? {
        return Original(url);
      }
      var searchParams := ApplyUtmParams(utmParams, parsed.value.search);
      r := Rebuilt(parsed.value.(search := searchParams));
    }
  }

  /** Some stored key starts with `utm_`. */
  predicate HasUtmKey(b: Bundle)
  {
    exists k | k in b :: StartsWith(k, "utm_")
  }

  /** One `searchParams.set(k, v)` on a `utm_*` key, with what it keeps. */
  lemma SetStep(q: Query, k: string, v: string)
    requires k in UTM_KEY_SET
    ensures Get(Set(q, k, v), k) == Some(v) && Count(Set(q, k, v), k) == 1
    ensures Drop(Set(q, k, v), UTM_KEY_SET) == Drop(q, UTM_KEY_SET)
    ensures forall k' :: k' != k ==> Get(Set(q, k, v), k') == Get(q, k') && Count(Set(q, k, v), k') == Count(q, k')
  {
    SetFacts(q, k, v, UTM_KEY_SET, if k == UTM_SOURCE then UTM_TERM else UTM_SOURCE);
    forall k' | k' != k
      ensures Get(Set(q, k, v), k') == Get(q, k') && Count(Set(q, k, v), k') == Count(q, k')
    {
      SetFacts(q, k, v, UTM_KEY_SET, k');
    }
  }

  /** The pairs outside the five keys are those of `q`. */
  predicate OthersKept(q: Query, r: Query)
  {
    Drop(r, UTM_KEY_SET) == Drop(q, UTM_KEY_SET)
  }

  /** Each key in `done` with a truthy stored value occurs once in `r`, with that value. */
  predicate TruthySet(utmParams: Bundle, r: Query, done: set<string>)
  {
    forall k :: k in done && Has1(utmParams, k) ==> Get(r, k) == Some(utmParams[k]) && Count(r, k) == 1
  }

  /** The other keys among the five are as in `q`. */
  predicate RestKept(utmParams: Bundle, q: Query, r: Query, done: set<string>)
  {
    forall k :: k in UTM_KEY_SET && !(k in done && Has1(utmParams, k)) ==>
      Get(r, k) == Get(q, k) && Count(r, k) == Count(q, k)
  }

  /** `r` is `q` after the conditional `set` calls for the keys in `done`. */
  predicate Applied(utmParams: Bundle, q: Query, r: Query, done: set<string>)
  {
    OthersKept(q, r) && TruthySet(utmParams, r, done) && RestKept(utmParams, q, r, done)
  }

  lemma TruthySetStep(utmParams: Bundle, r: Query, done: set<string>, k: string)
    requires TruthySet(utmParams, r, done) && k in UTM_KEY_SET && Has1(utmParams, k)
    ensures TruthySet(utmParams, Set(r, k, utmParams[k]), done + {k})
  {
    var v := utmParams[k];
    var r' := Set(r, k, v);
    SetStep(r, k, v);
    forall k' | k' in done + {k} && Has1(utmParams, k')
      ensures Get(r', k') == Some(utmParams[k']) && Count(r', k') == 1
    {
      if k' != k {
        assert Get(r, k') == Some(utmParams[k']) && Count(r, k') == 1;
      }
    }
  }

  lemma RestKeptStep(utmParams: Bundle, q: Query, r: Query, done: set<string>, k: string)
    requires RestKept(utmParams, q, r, done) && k in UTM_KEY_SET && Has1(utmParams, k)
    ensures RestKept(utmParams, q, Set(r, k, utmParams[k]), done + {k})
  {
    var v := utmParams[k];
    var r' := Set(r, k, v);
    SetStep(r, k, v);
    forall k' | k' in UTM_KEY_SET && !(k' in done + {k} && Has1(utmParams, k'))
      ensures Get(r', k') == Get(q, k') && Count(r', k') == Count(q, k')
    {
      assert k' != k;
      assert Get(r, k') == Get(q, k') && Count(r, k') == Count(q, k');
    }
  }

  lemma RestKeptSkip(utmParams: Bundle, q: Query, r: Query, done: set<string>, k: string)
    requires RestKept(utmParams, q, r, done) && !Has1(utmParams, k)
    ensures RestKept(utmParams, q, r, done + {k})
  {
    forall k' | k' in UTM_KEY_SET && !(k' in done + {k} && Has1(utmParams, k'))
      ensures Get(r, k') == Get(q, k') && Count(r, k') == Count(q, k')
    {
      assert !(k' in done && Has1(utmParams, k'));
    }
  }

  /** `if (utmParams[k]) searchParams.set(k, utmParams[k])`: extends `done` by `k`. */
  method SetIfTruthy(utmParams: Bundle, q: Query, r: Query, ghost done: set<string>, k: string)
    returns (r': Query)
    requires Applied(utmParams, q, r, done) && k in UTM_KEY_SET
    ensures Applied(utmParams, q, r', done + {k})
    ensures Has1(utmParams, k) ==> r' == Set(r, k, utmParams[k])
    ensures !Has1(utmParams, k) ==> r' == r
  {
    r' := r;
    if Has1(utmParams, k) {
      SetStep(r, k, utmParams[k]);
      TruthySetStep(utmParams, r, done, k);
      RestKeptStep(utmParams, q, r, done, k);
      r' := Set(r, k, utmParams[k]);
    } else {
      RestKeptSkip(utmParams, q, r, done, k);
    }
  }

  /** The five conditional `searchParams.set` calls of `appendUTMToURL`: each
      truthy stored `utm_*` value ends up in the query exactly once, the other
      `utm_*` keys and every non-`utm_*` pair are left as they were. */
  method ApplyUtmParams(utmParams: Bundle, q: Query) returns (r: Query)
    ensures Drop(r, UTM_KEY_SET) == Drop(q, UTM_KEY_SET)
    ensures forall k :: k in UTM_KEY_SET && Has1(utmParams, k) ==>
      Get(r, k) == Some(utmParams[k]) && Count(r, k) == 1
    ensures forall k :: k in UTM_KEY_SET && !Has1(utmParams, k) ==>
      Get(r, k) == Get(q, k) && Count(r, k) == Count(q, k)
  {
    r := q;
    ghost var done: set<string> := {};
    r := SetIfTruthy(utmParams, q, r, done, UTM_SOURCE);
    done := done + {UTM_SOURCE};
    r := SetIfTruthy(utmParams, q, r, done, UTM_MEDIUM);
    done := done + {UTM_MEDIUM};
    r := SetIfTruthy(utmParams, q, r, done, UTM_CAMPAIGN);
    done := done + {UTM_CAMPAIGN};
    r := SetIfTruthy(utmParams, q, r, done, UTM_CONTENT);
    done := done + {UTM_CONTENT};
    r := SetIfTruthy(utmParams, q, r, done, UTM_TERM);
    done := done + {UTM_TERM};
    assert done == UTM_KEY_SET;
  }
}
